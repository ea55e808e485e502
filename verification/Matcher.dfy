/** The indexed matcher: three dictionaries kept coherent with the registration log, and the
    hash-filtered search proved equal to the naive scan of that log. */
module Matcher {
  import opened Wrappers
  import opened Hashing
  import opened Types
  import opened Matching

  type ScopeHash = (string, int)

  datatype MatchError = WrongChunkLength | InvalidSegment | OffsetOutsideTokens

  function KeyOf(id: SegmentId): ScopeHash {
    (id.modelScope, id.contentHash)
  }

  /** The records of one hash bucket, in registration order. */
  function Bucket(log: Log, key: ScopeHash): Log {
    if log == [] then []
    else
      var rest, last := Bucket(log[..|log| - 1], key), log[|log| - 1];
      if KeyOf(last.segmentId) == key then rest + [last] else rest
  }

  /** Records whose hash field is right; all others can never be found by a hash lookup. */
  function RightlyHashed(log: Log): Log {
    if log == [] then []
    else if log[0].HashIsRight() then [log[0]] + RightlyHashed(log[1..])
    else RightlyHashed(log[1..])
  }

  function FirstWithTokens(records: Log, window: seq<Token>): Option<FingerprintRecord> {
    if records == [] then None
    else if records[0].tokens == window then Some(records[0])
    else FirstWithTokens(records[1..], window)
  }

  lemma {:induction false} BucketElements(log: Log, key: ScopeHash)
    ensures forall r :: r in Bucket(log, key) <==> r in log && KeyOf(r.segmentId) == key
  {
    if log != [] {
      var rest, last := log[..|log| - 1], log[|log| - 1];
      assert log == rest + [last];
      BucketElements(rest, key);
    }
  }

  lemma {:induction false} BucketWithout(log: Log, id: SegmentId, key: ScopeHash)
    ensures Bucket(Without(log, id), key) == Without(Bucket(log, key), id)
    ensures KeyOf(id) != key ==> Bucket(Without(log, id), key) == Bucket(log, key)
  {
    if log != [] {
      var rest, last := log[..|log| - 1], log[|log| - 1];
      BucketWithout(rest, id, key);
      var w, b := Without(rest, id), Bucket(rest, key);
      assert (w + [last])[..|w|] == w && (b + [last])[..|b|] == b;
    }
  }

  lemma BucketAppend(log: Log, record: FingerprintRecord, key: ScopeHash)
    ensures Bucket(log + [record], key) == if KeyOf(record.segmentId) == key then Bucket(log, key) + [record]
        else Bucket(log, key)
  {
    assert (log + [record])[..|log|] == log;
  }

  lemma {:induction false} BucketCons(head: FingerprintRecord, rest: Log, key: ScopeHash)
    ensures Bucket([head] + rest, key) == if KeyOf(head.segmentId) == key then [head] + Bucket(rest, key)
        else Bucket(rest, key)
  {
    if rest == [] {
      assert [head] + rest == [head] && [head][..0] == [];
    } else {
      var front, last := rest[..|rest| - 1], rest[|rest| - 1];
      assert rest == front + [last];
      BucketCons(head, front, key);
      assert [head] + rest == ([head] + front) + [last];
      BucketAppend([head] + front, last, key);
      BucketAppend(front, last, key);
    }
  }

  /** Looking in one bucket finds exactly what scanning the rightly hashed log finds. */
  lemma {:induction false} BucketCandidate(log: Log, scope: string, window: seq<Token>)
    ensures FirstWithTokens(Bucket(log, (scope, HashOf(window))), window)
        == Candidate(RightlyHashed(log), scope, window)
  {
    var key := (scope, HashOf(window));
    if log == [] {
    } else {
      var head, rest := log[0], log[1..];
      assert log == [head] + rest;
      BucketCons(head, rest, key);
      BucketCandidate(rest, scope, window);
      if head.HashIsRight() {
        assert ([head] + RightlyHashed(rest))[1..] == RightlyHashed(rest);
      }
      if KeyOf(head.segmentId) == key {
        assert ([head] + Bucket(rest, key))[1..] == Bucket(rest, key);
      }
    }
  }

  lemma {:induction false} RightlyHashedElements(log: Log)
    ensures forall r :: r in RightlyHashed(log) <==> r in log && r.HashIsRight()
  {
    if log != [] {
      RightlyHashedElements(log[1..]);
    }
  }

  lemma {:induction false} MadeLogsAreRightlyHashed(log: Log, chunkSize: nat)
    requires AllMade(log, chunkSize)
    ensures RightlyHashed(log) == log
  {
    if log != [] {
      assert log[0].Made(chunkSize);
      MadeLogsAreRightlyHashed(log[1..], chunkSize);
    }
  }

  class TokenRangeMatcher {
    const chunkSize: nat
    var byScopeHash: map<ScopeHash, seq<FingerprintRecord>>
    var scopeHashes: map<string, set<int>>
    var byId: map<SegmentId, FingerprintRecord>
    ghost var log: Log

    ghost predicate Valid()
      reads this
    {
      && chunkSize > 0
      && UniqueIds(log)
      && IdIndex(byId, log)
      && HashIndex(byScopeHash, log)
      && ScopeIndex(scopeHashes, byScopeHash)
    }

    constructor (size: nat)
      requires size > 0
      ensures Valid() && log == [] && chunkSize == size
    {
      chunkSize := size;
      byScopeHash, scopeHashes, byId, log := map[], map[], map[], [];
    }

    method MakeRecord(modelScope: string, sourceStart: int, tokens: seq<Token>)
      returns (r: Result<FingerprintRecord, MatchError>)
      requires Valid()
      ensures r.Ok? <==> |tokens| == chunkSize && modelScope != "" && sourceStart >= 0
      ensures r.Raise? ==> r.error == if |tokens| != chunkSize then WrongChunkLength else InvalidSegment
      ensures r.Ok? ==> r.value.Made(chunkSize) && r.value.tokens == tokens
                        && r.value.segmentId.modelScope == modelScope && r.value.segmentId.sourceStart == sourceStart
    {
      if |tokens| != chunkSize {
        return Raise(WrongChunkLength);
      }
      var hash := ContentHash(tokens);
      var id := SegmentId(modelScope, hash, sourceStart, |tokens|);
      if !id.Valid() {
        return Raise(InvalidSegment);
      }
      return Ok(FingerprintRecord(id, tokens));
    }

    method Register(record: FingerprintRecord)
      requires Valid()
      modifies this
      ensures Valid() && log == Registered(old(log), record)
    {
      hide HashIndex, ScopeIndex, Without;
      var id := record.segmentId;
      IdIndexDecides(byId, log, record);
      if id in byId && byId[id] == record {
        return;
      }
      if id in byId {
        Unregister(id);
      } else {
        WithoutAbsent(log, id);
      }
      WithoutElements(old(log), id);
      var key := KeyOf(id);
      IdIndexAppend(byId, log, record);
      HashIndexAppend(byScopeHash, log, record);
      ScopeIndexAppend(scopeHashes, byScopeHash, key, record);
      byId := byId[id := record];
      byScopeHash := byScopeHash[key := (if key in byScopeHash then byScopeHash[key] else []) + [record]];
      scopeHashes := scopeHashes[key.0 := (if key.0 in scopeHashes then scopeHashes[key.0] else {}) + {key.1}];
      log := log + [record];
    }

    method Unregister(id: SegmentId)
      requires Valid()
      modifies this
      ensures Valid() && log == Without(old(log), id)
    {
      hide HashIndex, ScopeIndex, Without;
      IdIndexRemove(byId, log, id);
      WithoutElements(log, id);
      if id !in byId {
        WithoutAbsent(log, id);
        return;
      }
      var key := KeyOf(id);
      HashIndexHas(byScopeHash, log, byId[id]);
      HashIndexRemove(byScopeHash, log, id);
      ScopeIndexRemove(scopeHashes, byScopeHash, key, Without(byScopeHash[key], id));
      var records := Without(byScopeHash[key], id);
      byId := byId - {id};
      if records != [] {
        byScopeHash := byScopeHash[key := records];
      } else {
        byScopeHash := byScopeHash - {key};
        var hashes := scopeHashes[key.0] - {key.1};
        scopeHashes := if hashes == {} then scopeHashes - {key.0} else scopeHashes[key.0 := hashes];
      }
      log := Without(log, id);
    }

    /** The first record of one bucket that carries exactly the queried tokens. */
    method Probe(modelScope: string, value: int, queryTokens: seq<Token>) returns (record: Option<FingerprintRecord>)
      requires Valid() && value == HashOf(queryTokens)
      ensures record == Candidate(RightlyHashed(log), modelScope, queryTokens)
    {
      BucketCandidate(log, modelScope, queryTokens);
      var candidates := if (modelScope, value) in byScopeHash then byScopeHash[(modelScope, value)] else [];
      return FirstWithTokens(candidates, queryTokens);
    }

    /** The hash-filtered search. Its result is the naive scan of the rightly hashed records:
        the prefilter and colliding hashes never add, lose or move a match. */
    method Match(modelScope: string, tokens: seq<Token>, startOffset: int)
      returns (r: Result<seq<BlendSegment>, MatchError>)
      requires Valid()
      ensures r.Raise? <==> startOffset < 0 || startOffset > |tokens|
      ensures r.Raise? ==> r.error == OffsetOutsideTokens
      ensures r.Ok? ==> r.value == Scan(RightlyHashed(log), chunkSize, modelScope, tokens, startOffset)
    {
      if startOffset < 0 || startOffset > |tokens| {
        return Raise(OffsetOutsideTokens);
      }
      if modelScope !in scopeHashes || scopeHashes[modelScope] == {} {
        UnknownScopeScansEmpty(byScopeHash, scopeHashes, log, chunkSize, modelScope, tokens, startOffset);
        return Ok([]);
      }
      var matches := SearchSuffix(modelScope, tokens, startOffset, scopeHashes[modelScope]);
      return Ok(matches);
    }

    /** Visits the offsets whose rolled hash is known, skipping those inside the last match. */
    method SearchSuffix(modelScope: string, tokens: seq<Token>, startOffset: nat, known: set<int>)
      returns (matches: seq<BlendSegment>)
      requires Valid() && startOffset <= |tokens|
      requires modelScope in scopeHashes && known == scopeHashes[modelScope]
      ensures matches == Scan(RightlyHashed(log), chunkSize, modelScope, tokens, startOffset)
    {
      hide Scan, HashOf, Candidate, RightlyHashed, WindowHash;
      ghost var stored := RightlyHashed(log);
      matches := [];
      var nextAllowed := startOffset;
      var rolled := RollingHashValues(tokens[startOffset..], chunkSize);
      var hashes := rolled.value;
      ProgressStart(stored, chunkSize, modelScope, tokens, startOffset);
      for relativeStart := 0 to |hashes|
        invariant startOffset <= nextAllowed <= |tokens|
        invariant Progress(stored, chunkSize, modelScope, tokens, startOffset, matches,
                           Max(startOffset + relativeStart, nextAllowed))
      {
        var targetStart := startOffset + relativeStart;
        var value := hashes[relativeStart];
        var window := tokens[targetStart..targetStart + chunkSize];
        assert value == HashOf(window) by { WindowOfSuffix(tokens, startOffset, relativeStart, chunkSize); }
        IndexFindsCandidate(byScopeHash, scopeHashes, log, modelScope, window);
        if targetStart >= nextAllowed {
          ProgressStep(stored, chunkSize, modelScope, tokens, startOffset, matches, targetStart);
        }
        if value in known && targetStart >= nextAllowed {
          var record := Probe(modelScope, value, window);
          if record.Some? {
            matches := matches + [BlendSegment(record.value.segmentId, targetStart)];
            nextAllowed := targetStart + chunkSize;
          }
        }
      }
      ProgressEnds(stored, chunkSize, modelScope, tokens, startOffset, matches,
                   Max(startOffset + |hashes|, nextAllowed));
    }
  }

  // ---------------------------------------------------------------- coherence of the three indexes

  ghost predicate IdIndex(byId: map<SegmentId, FingerprintRecord>, log: Log) {
    && (forall r :: r in log ==> r.segmentId in byId && byId[r.segmentId] == r)
    && (forall id :: id in byId ==> byId[id] in log && byId[id].segmentId == id)
  }

  ghost predicate HashIndex(byScopeHash: map<ScopeHash, seq<FingerprintRecord>>, log: Log) {
    && (forall key :: key in byScopeHash ==> byScopeHash[key] != [] && byScopeHash[key] == Bucket(log, key))
    && (forall key :: key !in byScopeHash ==> Bucket(log, key) == [])
  }

  ghost predicate ScopeIndex(scopeHashes: map<string, set<int>>, byScopeHash: map<ScopeHash, seq<FingerprintRecord>>) {
    && (forall scope :: scope in scopeHashes ==> scopeHashes[scope] != {})
    && (forall key: ScopeHash :: key in byScopeHash <==> key.0 in scopeHashes && key.1 in scopeHashes[key.0])
  }

  lemma IdIndexDecides(byId: map<SegmentId, FingerprintRecord>, log: Log, record: FingerprintRecord)
    requires IdIndex(byId, log)
    ensures record in log <==> record.segmentId in byId && byId[record.segmentId] == record
    ensures record.segmentId in IdsOf(log) <==> record.segmentId in byId
  {
    if record.segmentId in byId {
      assert byId[record.segmentId] in log;
    }
  }

  lemma IdIndexAppend(byId: map<SegmentId, FingerprintRecord>, log: Log, record: FingerprintRecord)
    requires IdIndex(byId, log) && record.segmentId !in byId && UniqueIds(log)
    ensures IdIndex(byId[record.segmentId := record], log + [record])
    ensures UniqueIds(log + [record])
  {
    forall i | 0 <= i < |log| ensures log[i].segmentId != record.segmentId {
      assert log[i] in log;
    }
  }

  lemma IdIndexRemove(byId: map<SegmentId, FingerprintRecord>, log: Log, id: SegmentId)
    requires IdIndex(byId, log)
    ensures IdIndex(byId - {id}, Without(log, id))
  {
    WithoutElements(log, id);
  }

  lemma HashIndexHas(byScopeHash: map<ScopeHash, seq<FingerprintRecord>>, log: Log, record: FingerprintRecord)
    requires HashIndex(byScopeHash, log) && record in log
    ensures KeyOf(record.segmentId) in byScopeHash
  {
    BucketElements(log, KeyOf(record.segmentId));
  }

  lemma ScopeIndexAppend(scopeHashes: map<string, set<int>>, byScopeHash: map<ScopeHash, seq<FingerprintRecord>>,
                         key: ScopeHash, record: FingerprintRecord)
    requires ScopeIndex(scopeHashes, byScopeHash)
    ensures ScopeIndex(scopeHashes[key.0 := (if key.0 in scopeHashes then scopeHashes[key.0] else {}) + {key.1}],
                       byScopeHash[key := (if key in byScopeHash then byScopeHash[key] else []) + [record]])
  {
  }

  lemma ScopeIndexRemove(scopeHashes: map<string, set<int>>, byScopeHash: map<ScopeHash, seq<FingerprintRecord>>,
                         key: ScopeHash, records: Log)
    requires ScopeIndex(scopeHashes, byScopeHash) && key in byScopeHash
    ensures key.0 in scopeHashes
    ensures var hashes := scopeHashes[key.0] - {key.1};
            if records != [] then ScopeIndex(scopeHashes, byScopeHash[key := records])
            else ScopeIndex(if hashes == {} then scopeHashes - {key.0} else scopeHashes[key.0 := hashes],
                            byScopeHash - {key})
  {
    assert key == (key.0, key.1);
    assert (key.0, key.1) in byScopeHash;
  }

  lemma HashIndexAppend(byScopeHash: map<ScopeHash, seq<FingerprintRecord>>, log: Log, record: FingerprintRecord)
    requires HashIndex(byScopeHash, log)
    ensures var key := KeyOf(record.segmentId);
            HashIndex(byScopeHash[key := (if key in byScopeHash then byScopeHash[key] else []) + [record]],
                      log + [record])
  {
    forall key
      ensures Bucket(log + [record], key) == if KeyOf(record.segmentId) == key then Bucket(log, key) + [record]
          else Bucket(log, key) {
      BucketAppend(log, record, key);
    }
  }

  /** The bucket index as it stands for one key. */
  ghost predicate IndexedAt(byScopeHash: map<ScopeHash, seq<FingerprintRecord>>, log: Log, key: ScopeHash) {
    if key in byScopeHash then byScopeHash[key] != [] && byScopeHash[key] == Bucket(log, key)
      else Bucket(log, key) == []
  }

  lemma IndexedEverywhere(byScopeHash: map<ScopeHash, seq<FingerprintRecord>>, log: Log)
    requires forall key: ScopeHash :: IndexedAt(byScopeHash, log, key)
    ensures HashIndex(byScopeHash, log)
  {
    hide Bucket;
    forall key | key in byScopeHash ensures byScopeHash[key] != [] && byScopeHash[key] == Bucket(log, key) {
      assert IndexedAt(byScopeHash, log, key);
    }
    forall key | key !in byScopeHash ensures Bucket(log, key) == [] {
      assert IndexedAt(byScopeHash, log, key);
    }
  }

  lemma HashIndexRemove(byScopeHash: map<ScopeHash, seq<FingerprintRecord>>, log: Log, id: SegmentId)
    requires HashIndex(byScopeHash, log) && KeyOf(id) in byScopeHash
    ensures var key := KeyOf(id);
            var records := Without(byScopeHash[key], id);
            HashIndex(if records == [] then byScopeHash - {key} else byScopeHash[key := records], Without(log, id))
  {
    hide Bucket, Without, HashIndex;
    var records := Without(byScopeHash[KeyOf(id)], id);
    var after := if records == [] then byScopeHash - {KeyOf(id)} else byScopeHash[KeyOf(id) := records];
    forall key: ScopeHash ensures IndexedAt(after, Without(log, id), key) {
      BucketWithout(log, id, key);
      IndexAt(byScopeHash, log, key);
    }
    IndexedEverywhere(after, Without(log, id));
  }

  lemma IndexAt(byScopeHash: map<ScopeHash, seq<FingerprintRecord>>, log: Log, key: ScopeHash)
    requires HashIndex(byScopeHash, log)
    ensures IndexedAt(byScopeHash, log, key)
  {
  }

  /** What was emitted, followed by the rest of the naive scan from `at`, is the whole naive scan. */
  ghost predicate Progress(stored: Log, chunkSize: nat, scope: string, tokens: seq<Token>, from: nat,
                           matches: seq<BlendSegment>, at: nat)
    requires chunkSize > 0
  {
    matches + Scan(stored, chunkSize, scope, tokens, at) == Scan(stored, chunkSize, scope, tokens, from)
  }

  lemma ProgressStart(stored: Log, chunkSize: nat, scope: string, tokens: seq<Token>, from: nat)
    requires chunkSize > 0
    ensures Progress(stored, chunkSize, scope, tokens, from, [], from)
  {
    var whole := Scan(stored, chunkSize, scope, tokens, from);
    assert [] + whole == whole;
  }

  /** Past the last full window nothing more is found. */
  lemma ProgressEnds(stored: Log, chunkSize: nat, scope: string, tokens: seq<Token>, from: nat,
                     matches: seq<BlendSegment>, at: nat)
    requires chunkSize > 0 && at + chunkSize > |tokens| && Progress(stored, chunkSize, scope, tokens, from, matches, at)
    ensures matches == Scan(stored, chunkSize, scope, tokens, from)
  {
    assert Scan(stored, chunkSize, scope, tokens, at) == [];
    assert matches + [] == matches;
  }

  lemma WindowOfSuffix(tokens: seq<Token>, start: nat, relative: nat, chunkSize: nat)
    requires start + relative + chunkSize <= |tokens|
    ensures tokens[start..][relative..relative + chunkSize] == tokens[start + relative..start + relative + chunkSize]
  {
  }

  lemma ProgressStep(stored: Log, chunkSize: nat, scope: string, tokens: seq<Token>, from: nat,
                     matches: seq<BlendSegment>, at: nat)
    requires chunkSize > 0 && at + chunkSize <= |tokens|
    requires Progress(stored, chunkSize, scope, tokens, from, matches, at)
    ensures match Candidate(stored, scope, tokens[at..at + chunkSize])
            case None => Progress(stored, chunkSize, scope, tokens, from, matches, at + 1)
            case Some(r) => Progress(stored, chunkSize, scope, tokens, from, matches + [BlendSegment(r.segmentId, at)],
                                     at + chunkSize)
  {
    match Candidate(stored, scope, tokens[at..at + chunkSize])
    case None =>
    case Some(r) =>
      var rest := Scan(stored, chunkSize, scope, tokens, at + chunkSize);
      assert matches + ([BlendSegment(r.segmentId, at)] + rest) == (matches + [BlendSegment(r.segmentId, at)]) + rest;
  }

  /** An absent hash rules every candidate out; a present one leads to the naive candidate. */
  lemma IndexFindsCandidate(
    byScopeHash: map<ScopeHash, seq<FingerprintRecord>>, scopeHashes: map<string, set<int>>,
    log: Log, scope: string, window: seq<Token>)
    requires HashIndex(byScopeHash, log) && ScopeIndex(scopeHashes, byScopeHash)
    ensures scope in scopeHashes && HashOf(window) in scopeHashes[scope] ==>
              (scope, HashOf(window)) in byScopeHash
              && FirstWithTokens(byScopeHash[(scope, HashOf(window))], window)
                 == Candidate(RightlyHashed(log), scope, window)
    ensures !(scope in scopeHashes && HashOf(window) in scopeHashes[scope]) ==>
              Candidate(RightlyHashed(log), scope, window).None?
  {
    BucketCandidate(log, scope, window);
  }

  lemma UnknownScopeScansEmpty(
    byScopeHash: map<ScopeHash, seq<FingerprintRecord>>, scopeHashes: map<string, set<int>>,
    log: Log, chunkSize: nat, scope: string, tokens: seq<Token>, from: nat)
    requires chunkSize > 0 && HashIndex(byScopeHash, log) && ScopeIndex(scopeHashes, byScopeHash)
    requires scope !in scopeHashes
    ensures Scan(RightlyHashed(log), chunkSize, scope, tokens, from) == []
  {
    var found := Scan(RightlyHashed(log), chunkSize, scope, tokens, from);
    ScanIsSound(RightlyHashed(log), chunkSize, scope, tokens, from);
    RightlyHashedElements(log);
    forall s ensures s !in found {
      if s in found {
        assert IsMatch(RightlyHashed(log), chunkSize, scope, tokens, s);
        var r :| r in RightlyHashed(log) && r.segmentId.modelScope == scope;
        HashIndexHas(byScopeHash, log, r);
        assert false;
      }
    }
    if found != [] { HasElement(found); }
  }
}
