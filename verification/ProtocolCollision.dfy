/** Two reachable runs of one prompt. In one a rank other than the searching one holds, under an agreed segment id,
    a chunk of different tokens: content claims on those ranks do need a condition. In the other the condition holds. */
module ProtocolCollision {
  import opened Wrappers
  import opened Hashing
  import opened Types
  import opened Matching
  import opened StoreModel
  import opened StoreInvariants
  import opened StoreOperations
  import opened StoreTheorems
  import opened ProtocolModel
  import opened Protocol
  import opened ProtocolRuns
  import opened ProtocolContent

  const CHUNK: seq<Token> := [1, 0]
  const TWIN: seq<Token> := [0, 1_000_003]

  /** A fresh two-token store after storing one single-layer chunk. */
  function OneChunk(tokens: seq<Token>): Store {
    var begun := BeginPut(Empty(2, 100), "m", 0, tokens, 1).0;
    PutLayerHost(begun, RecordOf("m", 0, tokens).segmentId, 0, Tensor(0, 1)).0
  }

  lemma OneChunkIsCommitted(tokens: seq<Token>)
    requires |tokens| == 2
    ensures var st, record := OneChunk(tokens), RecordOf("m", 0, tokens);
            && Inv(st) && st.chunkSize == 2 && st.matcher == [record]
            && IsCommitted(st, record.segmentId) && st.entries[record.segmentId].record == record
            && st.entries.Keys == {record.segmentId}
  {
    hide InvHolding, HashOf;
    var empty, record := Empty(2, 100), RecordOf("m", 0, tokens);
    EmptyIsSound(2, 100);
    BeginPutKeeps(empty, "m", 0, tokens, 1);
    var begun := BeginPut(empty, "m", 0, tokens, 1).0;
    PutLayerHostKeeps(begun, record.segmentId, 0, Tensor(0, 1));
    assert begun.entries[record.segmentId] == Entry(record, 1, map[], {}, 0, 0, false, false, 0);
    assert |map[][0 := Tensor(0, 1)]| == 1;
    assert Registered([], record) == [record];
  }

  lemma {:induction false} RunThenStep(s: Sys, actions: seq<Action>, a: Action)
    ensures RunSys(s, actions + [a]) == Step(RunSys(s, actions), a)
    decreases |actions|
  {
    if actions == [] {
      assert [] + [a] == [a];
    } else {
      assert (actions + [a])[1..] == actions[1..] + [a];
      RunThenStep(Step(s, actions[0]), actions[1..], a);
    }
  }

  lemma ReachableStep(s: Sys, a: Action)
    requires Reachable(s)
    ensures Reachable(Step(s, a))
  {
    hide Step;
    var n: nat, chunkSize: nat, limits: seq<nat>, sparse: bool, actions: seq<Action> :|
      n > 0 && chunkSize > 0 && |limits| == n && s == RunSys(Start(n, chunkSize, limits, sparse), actions);
    RunThenStep(Start(n, chunkSize, limits, sparse), actions, a);
  }

  const JOB: Job := Job("r", "m", [1, 0, 5], 0)

  function Hit(): BlendSegment {
    BlendSegment(RecordOf("m", 0, CHUNK).segmentId, 0)
  }

  /** Two tokens with the hash of the prompt's chunk. */
  predicate HashesAlike(other: seq<Token>) {
    |other| == 2 && HashOf(other) == HashOf(CHUNK)
  }

  /** Both ranks have stored one chunk, and the lookup of the prompt has been taken up. */
  function Stored(other: seq<Token>): Sys {
    Sys([OneChunk(CHUNK), OneChunk(other)], false, 2, [], Searching(0, JOB), {"r"}, map["r" := 0], map[], map[], {}, 1,
        {})
  }

  /** Both ranks hold their own chunk under the shared id, and no request has come in yet. */
  function Loaded(other: seq<Token>): Sys {
    Start(2, 2, [100, 100], false).(ranks := [OneChunk(CHUNK), OneChunk(other)])
  }

  lemma LoadedIsReachable(other: seq<Token>)
    requires |other| == 2
    ensures Reachable(Loaded(other))
  {
    hide HashOf, PutLayerHost, BeginPut;
    var s0 := Start(2, 2, [100, 100], false);
    assert RunSys(s0, []) == s0;
    assert Reachable(s0);
    assert s0.ranks == [Empty(2, 100), Empty(2, 100)];
    var a1 := RankOp(0, OpBeginPut("m", 0, CHUNK, 1));
    var a2 := RankOp(0, OpPutLayerHost(RecordOf("m", 0, CHUNK).segmentId, 0, Tensor(0, 1)));
    var a3 := RankOp(1, OpBeginPut("m", 0, other, 1));
    var a4 := RankOp(1, OpPutLayerHost(RecordOf("m", 0, other).segmentId, 0, Tensor(0, 1)));
    var s1 := Step(s0, a1);
    var s2 := Step(s1, a2);
    var s3 := Step(s2, a3);
    ReachableStep(s0, a1);
    ReachableStep(s1, a2);
    ReachableStep(s2, a3);
    ReachableStep(s3, a4);
    assert Step(s3, a4) == Loaded(other);
  }

  lemma StoredIsReachable(other: seq<Token>)
    requires |other| == 2
    ensures Reachable(Stored(other))
  {
    hide HashOf, PutLayerHost, BeginPut, OneChunk, Reachable;
    LoadedIsReachable(other);
    var s5 := Step(Loaded(other), GetMatched(JOB, true));
    ReachableStep(Loaded(other), GetMatched(JOB, true));
    assert s5.queue == [Lookup(0, JOB)];
    ReachableStep(s5, Dequeue);
    assert Step(s5, Dequeue) == Stored(other);
  }

  lemma SearchFindsChunk()
    ensures Scan(OneChunk(CHUNK).matcher, 2, "m", JOB.Suffix(), 0) == [Hit()]
  {
    hide HashOf, OneChunk;
    OneChunkIsCommitted(CHUNK);
    assert JOB.Suffix() == CHUNK;
    ScanOfOne();
  }

  lemma ScanOfOne()
    ensures Scan([RecordOf("m", 0, CHUNK)], 2, "m", CHUNK, 0) == [Hit()]
  {
    hide HashOf;
    assert CHUNK[0..2] == CHUNK;
    assert Scan([RecordOf("m", 0, CHUNK)], 2, "m", CHUNK, 2) == [];
  }

  /** Both ranks answer every question about the agreed segment with yes. */
  lemma Answers(st: Store)
    requires Inv(st) && IsCommitted(st, Hit().segmentId)
    ensures Validate(st, [Hit()]).1 == [Hit()] && IsCommitted(Validate(st, [Hit()]).0, Hit().segmentId)
    ensures Inv(Validate(st, [Hit()]).0) && Validate(st, [Hit()]).0.entries.Keys == st.entries.Keys
    ensures Pin(st, "r", [Hit()]).0.entries.Keys == st.entries.Keys
    ensures Validate(st, [Hit()]).0.entries[Hit().segmentId].record == st.entries[Hit().segmentId].record
    ensures Pin(st, "r", [Hit()]).1 == [Hit()] && IsCommitted(Pin(st, "r", [Hit()]).0, Hit().segmentId)
    ensures Pin(st, "r", [Hit()]).0.entries[Hit().segmentId].record == st.entries[Hit().segmentId].record
  {
    hide InvHolding, HashOf;
    ValidateKeeps(st, [Hit()]);
    ReleaseKeeps(st, "r");
    PinLoopFrame(Release(st, "r"), [Hit()]);
    assert [Hit()][1..] == [];
  }

  /** The rank stores both hold a committed entry under the agreed id; rank 1's is of the given tokens. */
  ghost predicate Twins(s: Sys, other: seq<Token>) {
    && |s.ranks| == 2 && Inv(s.ranks[0]) && Inv(s.ranks[1])
    && IsCommitted(s.ranks[0], Hit().segmentId) && IsCommitted(s.ranks[1], Hit().segmentId)
    && s.ranks[1].entries[Hit().segmentId].record.tokens == other
    && s.ranks[1].entries.Keys == {Hit().segmentId}
  }

  lemma RunToConfirming(other: seq<Token>) returns (s: Sys)
    requires HashesAlike(other)
    ensures Reachable(s) && Twins(s, other) && s.released == {} && s.ranks == Stored(other).ranks
    ensures s.worker == Confirming(0, JOB, [Hit()]) && s.chunkSize == 2
  {
    hide HashOf, Inv, Reachable, Scan, OneChunk;
    OneChunkIsCommitted(CHUNK);
    OneChunkIsCommitted(other);
    StoredIsReachable(other);
    SearchFindsChunk();
    s := Step(Stored(other), Search);
    ReachableStep(Stored(other), Search);
  }

  lemma ConfirmAnswered(s: Sys)
    requires s.worker == Confirming(0, JOB, [Hit()]) && |s.ranks| == 2 && Validate(s.ranks[0], [Hit()]).1 == [Hit()]
    ensures Step(s, Confirm) == s.(ranks := s.ranks[0 := Validate(s.ranks[0], [Hit()]).0],
                                   worker := Validating(0, JOB, [Hit()], {1}, {Hit()}))
  {
    hide HashOf, Validate;
    assert Shift([Hit()], 0) == [Hit()];
    assert Elements([Hit()]) == {Hit()};
    assert s.AllRanks() - {0} == {1};
  }

  lemma RunToValidating(other: seq<Token>) returns (s: Sys)
    requires HashesAlike(other)
    ensures Reachable(s) && Twins(s, other) && s.released == {}
    ensures s.worker == Validating(0, JOB, [Hit()], {1}, {Hit()}) && s.chunkSize == 2
  {
    hide HashOf, Inv, Reachable, Validate, Step;
    var s1 := RunToConfirming(other);
    Answers(s1.ranks[0]);
    ConfirmAnswered(s1);
    s := Step(s1, Confirm);
    ReachableStep(s1, Confirm);
  }

  lemma RunToValidated(other: seq<Token>) returns (s: Sys)
    requires HashesAlike(other)
    ensures Reachable(s) && Twins(s, other) && s.released == {}
    ensures s.worker == Validating(0, JOB, [Hit()], {}, {Hit()}) && s.chunkSize == 2
  {
    hide HashOf, Inv, Reachable, Validate;
    var s2 := RunToValidating(other);
    Answers(s2.ranks[1]);
    s := Step(s2, ValidateRank(1));
    ReachableStep(s2, ValidateRank(1));
  }

  lemma DecideAnswered(s: Sys)
    requires s.worker == Validating(0, JOB, [Hit()], {}, {Hit()}) && |s.ranks| == 2
    ensures Step(s, Decide(true)) == s.(worker := Prefetching(0, JOB, [Hit()], {0, 1}, {Hit()}))
  {
    hide HashOf;
    assert Keep([Hit()], {Hit()}) == [Hit()];
    assert Elements([Hit()]) == {Hit()};
    assert s.AllRanks() == {0, 1};
  }

  lemma RunToPrefetching(other: seq<Token>) returns (s: Sys)
    requires HashesAlike(other)
    ensures Reachable(s) && Twins(s, other) && s.released == {}
    ensures s.worker == Prefetching(0, JOB, [Hit()], {0, 1}, {Hit()}) && s.chunkSize == 2
  {
    hide HashOf, Inv, Reachable, Step;
    var s3 := RunToValidated(other);
    DecideAnswered(s3);
    s := Step(s3, Decide(true));
    ReachableStep(s3, Decide(true));
  }

  lemma RunToPinned(other: seq<Token>) returns (s: Sys)
    requires HashesAlike(other)
    ensures Reachable(s) && Twins(s, other) && s.released == {}
    ensures s.worker == Prefetching(0, JOB, [Hit()], {1}, {Hit()}) && s.chunkSize == 2
  {
    hide HashOf, Inv, Reachable, Pin;
    var s4 := RunToPrefetching(other);
    Answers(s4.ranks[0]);
    PinKeeps(s4.ranks[0], "r", [Hit()]);
    s := Step(s4, PrefetchRank(0));
    ReachableStep(s4, PrefetchRank(0));
  }

  lemma RunToAgreed(other: seq<Token>) returns (s: Sys)
    requires HashesAlike(other)
    ensures Reachable(s) && Twins(s, other) && s.released == {}
    ensures s.worker == Prefetching(0, JOB, [Hit()], {}, {Hit()}) && s.chunkSize == 2
  {
    hide HashOf, Inv, Reachable, Pin;
    var s5 := RunToPinned(other);
    Answers(s5.ranks[1]);
    PinKeeps(s5.ranks[1], "r", [Hit()]);
    s := Step(s5, PrefetchRank(1));
    ReachableStep(s5, PrefetchRank(1));
  }

  lemma RunToReturned(other: seq<Token>) returns (s: Sys)
    requires HashesAlike(other)
    ensures Reachable(s) && Twins(s, other) && s.released == {} && s.worker == Returned(0, JOB, [Hit()])
    ensures s.chunkSize == 2
  {
    hide HashOf, Inv, Reachable;
    var s6 := RunToAgreed(other);
    s := Step(s6, Decide(true));
    ReachableStep(s6, Decide(true));
  }

  /** The lookup returns the segment, and rank 1 stores other tokens under its id. */
  lemma CollidingChunkIsReturned() returns (s: Sys)
    ensures Reachable(s) && s.worker == Returned(0, JOB, [Hit()]) && |s.ranks| == 2 && "r" !in s.released
    ensures IsCommitted(s.ranks[1], Hit().segmentId)
    ensures s.ranks[1].entries[Hit().segmentId].record.tokens != JOB.prompt[Hit().targetStart..Hit().TargetEnd()]
  {
    hide HashOf, InvHolding;
    HashCollision();
    s := RunToReturned(TWIN);
    assert JOB.prompt[0..2] == CHUNK;
  }

  /** With its own copy of the chunk on rank 1, the store before the lookup meets the agreement condition. */
  lemma AgreementIsMet() returns (s: Sys)
    ensures Reachable(s) && s.worker == Searching(0, JOB) && s.ranks != [] && s.chunkSize > 0
    ensures Candidates(s, JOB) == [Hit()] && OnAllRanks(s, Hit().segmentId) && SharedIdsAgree(s, JOB)
  {
    hide HashOf, InvHolding, OneChunk, Scan;
    OneChunkIsCommitted(CHUNK);
    StoredIsReachable(CHUNK);
    SearchFindsChunk();
    s := Stored(CHUNK);
    assert Shift([Hit()], 0) == [Hit()];
  }

  lemma HashOfTwo(a: Token, b: Token)
    requires (a as int + 1) * POLY_BASE + b as int + 1 < MODULUS
    ensures HashOf([a, b]) == (a as int + 1) * POLY_BASE + b as int + 1
  {
    assert [a, b][..1] == [a];
    assert HashOf([a]) == a as int + 1;
  }

  /** The prompt's other window hashes differently. */
  lemma OtherWindowIsClear()
    ensures ClearOf(CHUNK, JOB.prompt, 2)
  {
    hide HashOf;
    HashOfTwo(1, 0);
    HashOfTwo(0, 5);
    var prompt := JOB.prompt;
    forall p: nat | p + 2 <= |prompt| ensures Uncollided(CHUNK, Window(prompt, p, 2)) {
      assert Window(prompt, p, 2) == if p == 0 then CHUNK else [0, 5];
    }
  }

  /** In the run with two copies nothing stored on rank 1 collides with the prompt. */
  lemma NoCollisionIsMet() returns (s: Sys)
    ensures Reachable(s) && s.worker == Returned(0, JOB, [Hit()]) && |s.ranks| == 2 && "r" !in s.released
    ensures s.chunkSize == 2
    ensures NoStoredCollision(s.ranks[1], JOB.prompt, s.chunkSize)
  {
    hide HashOf, InvHolding, ClearOf;
    s := RunToReturned(CHUNK);
    OtherWindowIsClear();
  }
}
