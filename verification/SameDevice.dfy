/** Loading segment by segment on the store's own device, where the device copy is the stored tensor itself: what the
    rotations do to the tensors, and exactly when that is harmless. */
module SameDevice {
  import opened Types
  import opened Loader
  import opened RopeLoader
  import Rope

  // ---------------------------------------------------------------- turns

  /** A rotation of every pair of a head. */
  datatype Turn = Turn(cos: seq<real>, sin: seq<real>)

  ghost predicate TurnFits(rope: Rope.Rotary, turn: Turn) {
    rope.Valid() && |turn.cos| == |turn.sin| == rope.rotaryDim / 2
  }

  function NoTurn(h: nat): (t: Turn)
    ensures |t.cos| == |t.sin| == h
  {
    Turn(seq(h, _ => 1.0), seq(h, _ => 0.0))
  }

  /** The turn that relocating from one position to another amounts to. */
  function Between(rope: Rope.Rotary, old_: nat, new_: nat): (t: Turn)
    requires rope.Valid() && old_ < |rope.cos| && new_ < |rope.cos|
    ensures TurnFits(rope, t)
  {
    Turn(Rope.DeltaCos(rope, old_, new_), Rope.DeltaSin(rope, old_, new_))
  }

  function Then(a: Turn, b: Turn): (t: Turn)
    requires |a.cos| == |a.sin| == |b.cos| == |b.sin|
    ensures |t.cos| == |t.sin| == |a.cos|
  {
    Turn(Rope.AddCos(a.cos, a.sin, b.cos, b.sin), Rope.AddSin(a.cos, a.sin, b.cos, b.sin))
  }

  function TurnKey(rope: Rope.Rotary, turn: Turn, key: Rope.Key): (r: Rope.Key)
    requires TurnFits(rope, turn) && Rope.KeyShaped(rope, key)
    ensures Rope.KeyShaped(rope, r) && |r| == |key|
  {
    seq(|key|, h requires 0 <= h < |key| => Rope.Rotate(key[h], turn.cos, turn.sin, rope.neox))
  }

  lemma TurnTwice(rope: Rope.Rotary, a: Turn, b: Turn, key: Rope.Key)
    requires TurnFits(rope, a) && TurnFits(rope, b) && Rope.KeyShaped(rope, key)
    ensures TurnKey(rope, b, TurnKey(rope, a, key)) == TurnKey(rope, Then(a, b), key)
  {
    hide Rope.Rotate, Rope.AddCos, Rope.AddSin;
    forall h | 0 <= h < |key|
      ensures TurnKey(rope, b, TurnKey(rope, a, key))[h] == TurnKey(rope, Then(a, b), key)[h]
    {
      Rope.RotateTwice(key[h], a.cos, a.sin, b.cos, b.sin, rope.neox);
    }
  }

  lemma NoTurnRotates(x: seq<real>, h: nat, neox: bool)
    requires |x| >= 2 * h
    ensures Rope.Rotate(x, NoTurn(h).cos, NoTurn(h).sin, neox) == x
  {
    hide Rope.Joined;
    var f, g, t := Rope.First(x, h, neox), Rope.Second(x, h, neox), NoTurn(h);
    assert Rope.Combine(f, g, t.cos, t.sin) == f && Rope.Cross(f, g, t.cos, t.sin) == g;
    Rope.JoinedSplit(x, h, neox);
  }

  lemma NoTurnKeeps(rope: Rope.Rotary, key: Rope.Key)
    requires rope.Valid() && Rope.KeyShaped(rope, key)
    ensures TurnKey(rope, NoTurn(rope.rotaryDim / 2), key) == key
  {
    forall h | 0 <= h < |key| { NoTurnRotates(key[h], rope.rotaryDim / 2, rope.neox); }
  }

  /** The key of one head whose every pair is a unit first component: turning it shows the turn. */
  function Probe(rope: Rope.Rotary): (x: seq<real>)
    requires rope.Valid()
    ensures |x| == rope.headSize
  {
    var h := rope.rotaryDim / 2;
    Rope.Joined(seq(h, _ => 1.0), seq(h, _ => 0.0), rope.neox) + seq(rope.headSize - 2 * h, _ => 0.0)
  }

  lemma ProbeShowsTurn(rope: Rope.Rotary, turn: Turn)
    requires TurnFits(rope, turn) && TurnKey(rope, turn, [Probe(rope)]) == [Probe(rope)]
    ensures turn == NoTurn(rope.rotaryDim / 2)
  {
    hide Rope.Rotate, Rope.First, Rope.Second;
    var h, x := rope.rotaryDim / 2, Probe(rope);
    assert TurnKey(rope, turn, [x])[0] == x;
    Rope.UnitProbe(turn.cos, turn.sin, x, rope.neox);
    Rope.UnitProbe(NoTurn(h).cos, NoTurn(h).sin, x, rope.neox);
    NoTurnRotates(x, h, rope.neox);
  }

  // ---------------------------------------------------------------- the turn left in a stored tensor

  ghost predicate InTables(rope: Rope.Rotary, segments: seq<BlendSegment>) {
    rope.Valid() && forall i :: 0 <= i < |segments| ==> SegmentInTables(segments[i], |rope.cos|)
  }

  predicate SegmentInTables(s: BlendSegment, n: nat) {
    s.Valid() && s.segmentId.sourceStart + s.Length() <= n && s.TargetEnd() <= n
  }

  /** What loading the segments one after the other has turned token j of a stored tensor by. */
  ghost function LeftTurn(rope: Rope.Rotary, segments: seq<BlendSegment>, id: SegmentId, j: nat): (t: Turn)
    requires InTables(rope, segments) && j < id.tokenCount
    ensures TurnFits(rope, t)
  {
    if segments == [] then NoTurn(rope.rotaryDim / 2)
    else
      var n := |segments| - 1;
      var s := segments[n];
      assert SegmentInTables(s, |rope.cos|);
      var before := LeftTurn(rope, segments[..n], id, j);
      if s.segmentId == id then Then(before, Between(rope, id.sourceStart + j, s.targetStart + j)) else before
  }

  ghost predicate ShapedHosts(rope: Rope.Rotary, hosts: Hosts<Rope.Key>) {
    forall id, j :: id in hosts && 0 <= j < |hosts[id]| ==> Rope.KeyShaped(rope, hosts[id][j].key)
  }

  /** One in-place load turns its tensor by the relocation's turn. */
  lemma MovedIsTurned(rope: Rope.Rotary, s: BlendSegment, hosts: Hosts<Rope.Key>, j: nat)
    requires TablesOk(rope) && SegmentInTables(s, |rope.cos|) && HasHost(hosts, s) && j < s.Length()
    requires Rope.KeyShaped(rope, hosts[s.segmentId][j].key)
    ensures MovedHost(Relocating(rope), s, hosts)[j]
            == KV(TurnKey(rope, Between(rope, s.segmentId.sourceStart + j, s.targetStart + j),
                          hosts[s.segmentId][j].key), hosts[s.segmentId][j].value)
  {
    hide Rope.Rotate, Rope.DeltaCos, Rope.DeltaSin;
    var old_, new_, key := s.segmentId.sourceStart + j, s.targetStart + j, hosts[s.segmentId][j].key;
    RelocatingStaysPut(rope);
    MovedAt(Relocating(rope), Sources(s), Targets(s), hosts[s.segmentId], j);
    assert Movable(rope, old_, new_, key);
    assert Rope.MapHeads(rope, old_, new_, key) == TurnKey(rope, Between(rope, old_, new_), key);
  }

  lemma {:induction false} StoredTurn(rope: Rope.Rotary, segments: seq<BlendSegment>, hosts: Hosts<Rope.Key>,
                                      id: SegmentId, j: nat)
    requires TablesOk(rope) && InTables(rope, segments) && AllValid(segments) && Stored(hosts, segments)
    requires ShapedHosts(rope, hosts)
    requires id in hosts && j < |hosts[id]| == id.tokenCount
    ensures var after := HostsAfter(Relocating(rope), segments, hosts, true);
            id in after && |after[id]| == |hosts[id]|
            && after[id][j] == KV(TurnKey(rope, LeftTurn(rope, segments, id, j), hosts[id][j].key), hosts[id][j].value)
  {
    hide TurnKey, MovedHost, TablesOk, Between, Then, Rope.KeyShaped;
    assert Rope.KeyShaped(rope, hosts[id][j].key);
    if segments == [] {
      NoTurnKeeps(rope, hosts[id][j].key);
    } else {
      var n := |segments| - 1;
      StoredTurn(rope, segments[..n], hosts, id, j);
      var before := HostsAfter(Relocating(rope), segments[..n], hosts, true);
      var s := segments[n];
      assert HasHost(hosts, s) && HasHost(before, s) && SegmentInTables(s, |rope.cos|);
      if s.segmentId == id {
        var left := LeftTurn(rope, segments[..n], id, j);
        MovedIsTurned(rope, s, before, j);
        TurnTwice(rope, left, Between(rope, id.sourceStart + j, s.targetStart + j), hosts[id][j].key);
      }
    }
  }

  // ---------------------------------------------------------------- one set of tables

  /** Every key that can be stored survives the loads. */
  ghost predicate StoreIsKept(rope: Rope.Rotary, segments: seq<BlendSegment>)
    requires AllValid(segments)
  {
    forall hosts: Hosts<Rope.Key> :: Stored(hosts, segments) && ShapedHosts(rope, hosts) ==>
      HostsAfter(Relocating(rope), segments, hosts, true) == hosts
  }

  /** The loads together turn no token of the segments. */
  ghost predicate TurnsCancel(rope: Rope.Rotary, segments: seq<BlendSegment>)
    requires InTables(rope, segments)
  {
    forall i, j: nat :: 0 <= i < |segments| && j < segments[i].segmentId.tokenCount ==>
      LeftTurn(rope, segments, segments[i].segmentId, j) == NoTurn(rope.rotaryDim / 2)
  }

  /** Stored tensors that show every turn. */
  ghost function ProbeHosts(rope: Rope.Rotary, segments: seq<BlendSegment>): (hosts: Hosts<Rope.Key>)
    requires rope.Valid() && AllValid(segments)
    ensures Stored(hosts, segments) && ShapedHosts(rope, hosts)
    ensures forall id, j :: id in hosts && 0 <= j < |hosts[id]| ==> hosts[id][j].key == [Probe(rope)]
  {
    ProbeHostsFit(rope, segments);
    ProbeTensors(rope, segments)
  }

  ghost function ProbeTensors(rope: Rope.Rotary, segments: seq<BlendSegment>): Hosts<Rope.Key>
    requires rope.Valid()
  {
    map id | id in (set i | 0 <= i < |segments| :: segments[i].segmentId) :: ProbeTensor(rope, id.tokenCount)
  }

  function ProbeTensor(rope: Rope.Rotary, n: int): seq<KV<Rope.Key>>
    requires rope.Valid()
  {
    seq(if n < 0 then 0 else n, _ => KV([Probe(rope)], []))
  }

  lemma ProbeHostsFit(rope: Rope.Rotary, segments: seq<BlendSegment>)
    requires rope.Valid() && AllValid(segments)
    ensures var hosts := ProbeTensors(rope, segments);
            && Stored(hosts, segments) && ShapedHosts(rope, hosts)
            && forall id, j :: id in hosts && 0 <= j < |hosts[id]| ==> hosts[id][j].key == [Probe(rope)]
  {
    hide Probe;
    var hosts := ProbeTensors(rope, segments);
    forall i | 0 <= i < |segments| ensures HasHost(hosts, segments[i]) {
      assert segments[i].Valid();
    }
  }

  lemma TokenKept(rope: Rope.Rotary, segments: seq<BlendSegment>, hosts: Hosts<Rope.Key>, i: nat, j: nat)
    requires TablesOk(rope) && InTables(rope, segments) && AllValid(segments) && Stored(hosts, segments)
    requires ShapedHosts(rope, hosts)
    requires i < |segments| && j < segments[i].segmentId.tokenCount
    ensures HasHost(hosts, segments[i])
    ensures var id := segments[i].segmentId; var after := HostsAfter(Relocating(rope), segments, hosts, true);
            && id in after && |after[id]| == |hosts[id]|
            && (LeftTurn(rope, segments, id, j) == NoTurn(rope.rotaryDim / 2) ==> after[id][j] == hosts[id][j])
            && (hosts[id][j].key == [Probe(rope)] && after[id][j] == hosts[id][j] ==>
                 LeftTurn(rope, segments, id, j) == NoTurn(rope.rotaryDim / 2))
  {
    hide TurnKey, HostsAfter, LeftTurn, NoTurn, Probe, TablesOk, Rope.KeyShaped;
    var id := segments[i].segmentId;
    assert HasHost(hosts, segments[i]);
    StoredTurn(rope, segments, hosts, id, j);
    assert Rope.KeyShaped(rope, hosts[id][j].key);
    NoTurnKeeps(rope, hosts[id][j].key);
    var turn := LeftTurn(rope, segments, id, j);
    if hosts[id][j].key == [Probe(rope)] && TurnKey(rope, turn, [Probe(rope)]) == [Probe(rope)] {
      ProbeShowsTurn(rope, turn);
    }
  }

  /** For given tables the store is left as it was exactly when the turns of each token cancel out. */
  lemma StoreIsKeptIff(rope: Rope.Rotary, segments: seq<BlendSegment>)
    requires TablesOk(rope) && InTables(rope, segments) && AllValid(segments)
    ensures StoreIsKept(rope, segments) <==> TurnsCancel(rope, segments)
  {
    hide HostsAfter, LeftTurn, NoTurn, ProbeHosts, TablesOk, Rope.KeyShaped, Probe;
    if StoreIsKept(rope, segments) {
      var hosts := ProbeHosts(rope, segments);
      forall i, j: nat | 0 <= i < |segments| && j < segments[i].segmentId.tokenCount
        ensures LeftTurn(rope, segments, segments[i].segmentId, j) == NoTurn(rope.rotaryDim / 2)
      {
        TokenKept(rope, segments, hosts, i, j);
        assert j < |hosts[segments[i].segmentId]|;
      }
    }
    if TurnsCancel(rope, segments) {
      forall hosts: Hosts<Rope.Key> | Stored(hosts, segments) && ShapedHosts(rope, hosts)
        ensures HostsAfter(Relocating(rope), segments, hosts, true) == hosts
      {
        CancelledHosts(rope, segments, hosts);
      }
    }
  }

  lemma CancelledHosts(rope: Rope.Rotary, segments: seq<BlendSegment>, hosts: Hosts<Rope.Key>)
    requires TablesOk(rope) && InTables(rope, segments) && AllValid(segments) && Stored(hosts, segments)
    requires ShapedHosts(rope, hosts)
    requires TurnsCancel(rope, segments)
    ensures HostsAfter(Relocating(rope), segments, hosts, true) == hosts
  {
    hide HostsAfter, LeftTurn, NoTurn, TablesOk, Rope.KeyShaped, Probe, ShapedHosts;
    var after := HostsAfter(Relocating(rope), segments, hosts, true);
    forall id | id in hosts ensures id in after && after[id] == hosts[id] {
      if i :| 0 <= i < |segments| && segments[i].segmentId == id {
        assert HasHost(hosts, segments[i]) && segments[i].Valid();
        forall j: nat | j < |hosts[id]| ensures |after[id]| == |hosts[id]| && after[id][j] == hosts[id][j] {
          TokenKept(rope, segments, hosts, i, j);
        }
        TokenKept(rope, segments, hosts, i, 0);
      } else {
        UnmovedIsUnchanged(Relocating(rope), segments, hosts, id);
      }
    }
  }

  /** Every buffer that the loop fills holds the planned hits. */
  ghost predicate LoadIsRight(rope: Rope.Rotary, segments: seq<BlendSegment>, size: nat)
    requires AllValid(segments)
  {
    forall hosts: Hosts<Rope.Key>, b: seq<KV<Rope.Key>> ::
      Stored(hosts, segments) && ShapedHosts(rope, hosts) && |b| == size
        && HitsPlaced(Relocating(rope), segments, |segments|, hosts, true, b)
      ==> HitsLoaded(Relocating(rope), hosts, segments, b)
  }

  /** No token is turned when its segment comes to be loaded. */
  ghost predicate ReadsUnturned(rope: Rope.Rotary, segments: seq<BlendSegment>)
    requires InTables(rope, segments)
  {
    forall i, j: nat :: 0 <= i < |segments| && j < segments[i].segmentId.tokenCount ==> UnturnedAt(rope, segments, i, j)
  }

  ghost predicate UnturnedAt(rope: Rope.Rotary, segments: seq<BlendSegment>, i: int, j: nat)
    requires InTables(rope, segments) && 0 <= i < |segments| && j < segments[i].segmentId.tokenCount
  {
    LeftTurn(rope, segments[..i], segments[i].segmentId, j) == NoTurn(rope.rotaryDim / 2)
  }

  /** Relocation loses nothing: moving back undoes it. */
  lemma MovingBackUndoes(rope: Rope.Rotary, old_: nat, new_: nat, key: Rope.Key)
    requires TablesOk(rope) && old_ < |rope.cos| && new_ < |rope.cos| && Rope.KeyShaped(rope, key)
    ensures Rope.MapHeads(rope, new_, old_, Rope.MapHeads(rope, old_, new_, key)) == key
  {
    hide Rope.RelocateHead;
    forall h | 0 <= h < |key|
      ensures Rope.MapHeads(rope, new_, old_, Rope.MapHeads(rope, old_, new_, key))[h] == key[h] {
      Rope.RelocationsCompose(rope, old_, new_, old_, key[h]);
      Rope.StayingIsIdentity(rope, old_, key[h]);
    }
  }

  lemma SameMovedSame(rope: Rope.Rotary, old_: int, new_: int, a: Rope.Key, b: Rope.Key)
    requires TablesOk(rope) && Movable(rope, old_, new_, a) && Movable(rope, old_, new_, b)
    ensures Relocating(rope)(old_, new_, a) == Relocating(rope)(old_, new_, b) <==> a == b
  {
    hide Rope.MapHeads, TablesOk;
    MovingBackUndoes(rope, old_, new_, a);
    MovingBackUndoes(rope, old_, new_, b);
  }

  /** A hit reads right exactly when its stored key is back where it was. */
  lemma HitReadsRight(rope: Rope.Rotary, segments: seq<BlendSegment>, hosts: Hosts<Rope.Key>, b: seq<KV<Rope.Key>>,
                      i: nat, p: int)
    requires TablesOk(rope) && InTables(rope, segments) && AllValid(segments) && Stored(hosts, segments)
    requires ShapedHosts(rope, hosts)
    requires i < |segments| && 0 <= p < |b| && segments[i].Covers(p)
    requires HitPlaced(Relocating(rope), segments, hosts, true, b, i, p)
    ensures HasHost(hosts, segments[i])
    ensures var id, j := segments[i].segmentId, p - segments[i].targetStart;
            && 0 <= j < |hosts[id]| == id.tokenCount
            && (HitLoaded(Relocating(rope), hosts, segments[i], b, p)
                <==> TurnKey(rope, LeftTurn(rope, segments[..i], id, j), hosts[id][j].key) == hosts[id][j].key)
  {
    hide TurnKey, LeftTurn, TablesOk, Rope.KeyShaped, HostsAfter, MoveKey;
    var s := segments[i];
    var id, j := s.segmentId, p - s.targetStart;
    assert HasHost(hosts, s) && SegmentInTables(s, |rope.cos|);
    PrefixFits(rope, segments, hosts, i);
    StoredTurn(rope, segments[..i], hosts, id, j);
    assert Rope.KeyShaped(rope, hosts[id][j].key);
    var turned := TurnKey(rope, LeftTurn(rope, segments[..i], id, j), hosts[id][j].key);
    SameMovedSame(rope, id.sourceStart + j, p, turned, hosts[id][j].key);
  }

  lemma PrefixFits(rope: Rope.Rotary, segments: seq<BlendSegment>, hosts: Hosts<Rope.Key>, i: nat)
    requires InTables(rope, segments) && AllValid(segments) && Stored(hosts, segments) && i <= |segments|
    ensures InTables(rope, segments[..i]) && AllValid(segments[..i]) && Stored(hosts, segments[..i])
  {
    hide HasHost, SegmentInTables;
  }

  /** A buffer as the loop leaves it. */
  ghost function Filled(rope: Rope.Rotary, segments: seq<BlendSegment>, hosts: Hosts<Rope.Key>, size: nat)
    : (b: seq<KV<Rope.Key>>)
    requires AllValid(segments) && Disjoint(segments) && Stored(hosts, segments)
    ensures |b| == size && HitsPlaced(Relocating(rope), segments, |segments|, hosts, true, b)
  {
    var b := seq(size, p requires 0 <= p < size => FilledAt(rope, segments, hosts, p));
    FilledIsPlaced(rope, segments, hosts, b);
    b
  }

  ghost function FilledAt(rope: Rope.Rotary, segments: seq<BlendSegment>, hosts: Hosts<Rope.Key>, p: int): KV<Rope.Key>
    requires AllValid(segments) && Stored(hosts, segments)
  {
    if i :| 0 <= i < |segments| && segments[i].Covers(p) then
      assert HasHost(hosts, segments[i]);
      FromHost(Relocating(rope), HostsAfter(Relocating(rope), segments[..i], hosts, true), segments[i], p)
    else KV([], [])
  }

  lemma FilledIsPlaced(rope: Rope.Rotary, segments: seq<BlendSegment>, hosts: Hosts<Rope.Key>, b: seq<KV<Rope.Key>>)
    requires AllValid(segments) && Disjoint(segments) && Stored(hosts, segments)
    requires forall p :: 0 <= p < |b| ==> b[p] == FilledAt(rope, segments, hosts, p)
    ensures HitsPlaced(Relocating(rope), segments, |segments|, hosts, true, b)
  {
    hide FromHost, HostsAfter, Relocating;
    forall i, p | 0 <= i < |segments| && 0 <= p < |b| && segments[i].Covers(p)
      ensures HitPlaced(Relocating(rope), segments, hosts, true, b, i, p)
    {
      OnlyCover(segments, i, p);
    }
  }

  lemma OnlyCover(segments: seq<BlendSegment>, i: nat, p: int)
    requires Disjoint(segments) && i < |segments| && segments[i].Covers(p)
    ensures forall k :: 0 <= k < |segments| && segments[k].Covers(p) ==> k == i
  {
  }

  /** For given tables every buffer is right exactly when no token is turned at the moment it is read. */
  lemma LoadIsRightIff(rope: Rope.Rotary, segments: seq<BlendSegment>, size: nat)
    requires TablesOk(rope) && InTables(rope, segments) && AllValid(segments) && Disjoint(segments)
    requires InSpan(segments, 0, size)
    ensures LoadIsRight(rope, segments, size) <==> ReadsUnturned(rope, segments)
  {
    hide HitsPlaced, TablesOk, ProbeHosts, UnturnedAt;
    if LoadIsRight(rope, segments, size) {
      var hosts := ProbeHosts(rope, segments);
      var b := Filled(rope, segments, hosts, size);
      forall i, j: nat | 0 <= i < |segments| && j < segments[i].segmentId.tokenCount
        ensures UnturnedAt(rope, segments, i, j) {
        ProbeReads(rope, segments, hosts, b, i, j);
      }
    }
    if ReadsUnturned(rope, segments) {
      forall hosts: Hosts<Rope.Key>, b: seq<KV<Rope.Key>>
        | Stored(hosts, segments) && ShapedHosts(rope, hosts) && |b| == size
          && HitsPlaced(Relocating(rope), segments, |segments|, hosts, true, b)
        ensures HitsLoaded(Relocating(rope), hosts, segments, b)
      {
        UnturnedReads(rope, segments, hosts, b);
      }
    }
  }

  lemma ProbeReads(rope: Rope.Rotary, segments: seq<BlendSegment>, hosts: Hosts<Rope.Key>, b: seq<KV<Rope.Key>>, i: nat,
                   j: nat)
    requires TablesOk(rope) && InTables(rope, segments) && AllValid(segments) && Stored(hosts, segments)
    requires ShapedHosts(rope, hosts)
    requires InSpan(segments, 0, |b|) && HitsPlaced(Relocating(rope), segments, |segments|, hosts, true, b)
    requires HitsLoaded(Relocating(rope), hosts, segments, b)
    requires forall id, x :: id in hosts && 0 <= x < |hosts[id]| ==> hosts[id][x].key == [Probe(rope)]
    requires i < |segments| && j < segments[i].segmentId.tokenCount
    ensures UnturnedAt(rope, segments, i, j)
  {
    hide TurnKey, LeftTurn, TablesOk, HitPlaced, HitLoaded, Probe, NoTurn, ShapedHosts, HasHost;
    var p := segments[i].targetStart + j;
    assert segments[i].Covers(p) && HitPlaced(Relocating(rope), segments, hosts, true, b, i, p);
    HitReadsRight(rope, segments, hosts, b, i, p);
    assert HasHost(hosts, segments[i]) && HitLoaded(Relocating(rope), hosts, segments[i], b, p);
    HasHostIs(hosts, segments[i]);
    ProbeShowsTurn(rope, LeftTurn(rope, segments[..i], segments[i].segmentId, j));
  }

  lemma HasHostIs<E>(hosts: Hosts<E>, s: BlendSegment)
    requires HasHost(hosts, s)
    ensures s.segmentId in hosts && |hosts[s.segmentId]| == s.segmentId.tokenCount
  {
  }

  lemma UnturnedReads(rope: Rope.Rotary, segments: seq<BlendSegment>, hosts: Hosts<Rope.Key>, b: seq<KV<Rope.Key>>)
    requires TablesOk(rope) && InTables(rope, segments) && AllValid(segments) && Stored(hosts, segments)
    requires ShapedHosts(rope, hosts)
    requires HitsPlaced(Relocating(rope), segments, |segments|, hosts, true, b) && ReadsUnturned(rope, segments)
    ensures HitsLoaded(Relocating(rope), hosts, segments, b)
  {
    hide TurnKey, LeftTurn, TablesOk, HitPlaced, HitLoaded, NoTurn, HasHost, Rope.KeyShaped;
    forall i, p | 0 <= i < |segments| && 0 <= p < |b| && segments[i].Covers(p)
      ensures HasHost(hosts, segments[i]) && HitLoaded(Relocating(rope), hosts, segments[i], b, p)
    {
      assert HitPlaced(Relocating(rope), segments, hosts, true, b, i, p);
      HitReadsRight(rope, segments, hosts, b, i, p);
      HasHostIs(hosts, segments[i]);
      var id, j := segments[i].segmentId, p - segments[i].targetStart;
      assert UnturnedAt(rope, segments, i, j) && Rope.KeyShaped(rope, hosts[id][j].key);
      NoTurnKeeps(rope, hosts[id][j].key);
    }
  }

  // ---------------------------------------------------------------- all tables

  /** The span and every source lie within tables of n rows. */
  ghost predicate WithinRows(segments: seq<BlendSegment>, n: nat) {
    forall i :: 0 <= i < |segments| ==> SegmentInTables(segments[i], n)
  }

  /** One pair per head: a quarter turn at position t, no turn anywhere else. */
  function QuarterAt(n: nat, t: nat): Rope.Rotary {
    Rope.Rotary(seq(n, p requires 0 <= p < n => if p == t then [0.0] else [1.0]),
                seq(n, p requires 0 <= p < n => if p == t then [1.0] else [0.0]), 2, 2, true)
  }

  lemma QuarterIsOk(n: nat, t: nat)
    ensures TablesOk(QuarterAt(n, t)) && |QuarterAt(n, t).cos| == n
  {
  }

  const QUARTER: Turn := Turn([0.0], [1.0])

  lemma QuarterBetween(n: nat, t: nat, old_: nat, new_: nat)
    requires old_ < n && new_ < n && old_ != t
    ensures QuarterAt(n, t).Valid() && Between(QuarterAt(n, t), old_, new_) == if new_ == t then QUARTER else NoTurn(1)
  {
    QuarterIsOk(n, t);
    var turn := Between(QuarterAt(n, t), old_, new_);
    assert |turn.cos| == 1 && |turn.sin| == 1;
    if new_ == t {
      assert turn.cos[0] == 0.0 && turn.sin[0] == 1.0;
    } else {
      assert turn.cos[0] == 1.0 && turn.sin[0] == 0.0;
    }
  }

  lemma ThenNothing(turn: Turn)
    requires |turn.cos| == |turn.sin| == 1
    ensures Then(turn, NoTurn(1)) == turn && Then(NoTurn(1), turn) == turn
  {
    assert Then(turn, NoTurn(1)).cos[0] == turn.cos[0] && Then(turn, NoTurn(1)).sin[0] == turn.sin[0];
    assert Then(NoTurn(1), turn).cos[0] == turn.cos[0] && Then(NoTurn(1), turn).sin[0] == turn.sin[0];
  }

  /** With the quarter turn at the target of one moved segment, exactly its load turns its first token. */
  lemma {:induction false} OneLoadTurns(segments: seq<BlendSegment>, n: nat, k: nat, m: nat)
    requires WithinRows(segments, n) && Disjoint(segments) && k < |segments| && m <= |segments|
    requires !Stationary(segments[k])
    ensures segments[k].segmentId.tokenCount > 0 && segments[k].targetStart >= 0
    ensures InTables(QuarterAt(n, segments[k].targetStart), segments[..m])
    ensures LeftTurn(QuarterAt(n, segments[k].targetStart), segments[..m], segments[k].segmentId, 0) == if k < m
        then QUARTER else NoTurn(1)
  {
    hide Between, Then, NoTurn;
    assert SegmentInTables(segments[k], n);
    var t, id := segments[k].targetStart, segments[k].segmentId;
    QuarterIsOk(n, t);
    ThenNothing(QUARTER);
    ThenNothing(NoTurn(1));
    if m > 0 {
      OneLoadTurns(segments, n, k, m - 1);
      assert segments[..m][..m - 1] == segments[..m - 1];
      var s := segments[m - 1];
      assert SegmentInTables(s, n);
      OnlyTarget(segments, k, m - 1);
      if s.segmentId == id {
        QuarterBetween(n, t, id.sourceStart, s.targetStart);
      }
    }
  }

  lemma OnlyTarget(segments: seq<BlendSegment>, k: nat, m: nat)
    requires Disjoint(segments) && k < |segments| && m < |segments| && segments[k].Valid() && segments[m].Valid()
    ensures segments[m].targetStart == segments[k].targetStart <==> m == k
  {
  }

  /** Whatever the unit-norm tables of n rows, every buffer holds the planned hits. */
  ghost predicate LoadAlwaysRight(segments: seq<BlendSegment>, size: nat, n: nat)
    requires AllValid(segments)
  {
    forall rope: Rope.Rotary :: TablesOk(rope) && |rope.cos| == n ==> LoadIsRight(rope, segments, size)
  }

  ghost predicate StoreAlwaysKept(segments: seq<BlendSegment>, n: nat)
    requires AllValid(segments)
  {
    forall rope: Rope.Rotary :: TablesOk(rope) && |rope.cos| == n ==> StoreIsKept(rope, segments)
  }

  lemma MovedReuseIsRead(segments: seq<BlendSegment>, size: nat, n: nat, k: nat, i: nat)
    requires WithinRows(segments, n) && AllValid(segments) && Disjoint(segments) && InSpan(segments, 0, size)
    requires k < i < |segments| && segments[k].segmentId == segments[i].segmentId && !Stationary(segments[k])
    ensures segments[k].targetStart >= 0
    ensures var rope := QuarterAt(n, segments[k].targetStart);
            TablesOk(rope) && |rope.cos| == n && !LoadIsRight(rope, segments, size)
  {
    hide LoadIsRight, LeftTurn, TablesOk;
    assert segments[k].Valid();
    var rope := QuarterAt(n, segments[k].targetStart);
    QuarterIsOk(n, segments[k].targetStart);
    OneLoadTurns(segments, n, k, |segments|);
    assert segments[..|segments|] == segments;
    OneLoadTurns(segments, n, k, i);
    LoadIsRightIff(rope, segments, size);
    assert NoTurn(1).cos[0] == 1.0;
    assert !UnturnedAt(rope, segments, i, 0);
  }

  /** On the store's own device the segment loop loads every hit right, for all unit-norm tables and all stored keys,
      if and only if no segment is used again after an earlier load moved its keys. */
  lemma SameDeviceIsRightIff(segments: seq<BlendSegment>, size: nat, n: nat)
    requires WithinRows(segments, n) && AllValid(segments) && Disjoint(segments) && InSpan(segments, 0, size)
    ensures LoadAlwaysRight(segments, size, n) <==> NoMovedReuse(segments)
  {
    hide TablesOk, ShapedHosts, HitsPlaced, HitsLoaded;
    if NoMovedReuse(segments) {
      forall rope: Rope.Rotary | TablesOk(rope) && |rope.cos| == n ensures LoadIsRight(rope, segments, size) {
        forall hosts: Hosts<Rope.Key>, b: seq<KV<Rope.Key>>
          | Stored(hosts, segments) && ShapedHosts(rope, hosts) && |b| == size
            && HitsPlaced(Relocating(rope), segments, |segments|, hosts, true, b)
          ensures HitsLoaded(Relocating(rope), hosts, segments, b)
        {
          UnmovedReuseIsSound(Relocating(rope), segments, hosts, b);
        }
      }
    } else {
      var k, i :| 0 <= k < i < |segments| && segments[k].segmentId == segments[i].segmentId && !Stationary(segments[k]);
      MovedReuseIsRead(segments, size, n, k, i);
    }
  }

  lemma MoveTurnsStore(segments: seq<BlendSegment>, n: nat, k: nat)
    requires WithinRows(segments, n) && AllValid(segments) && Disjoint(segments) && k < |segments|
    requires !Stationary(segments[k])
    ensures segments[k].targetStart >= 0
    ensures var rope := QuarterAt(n, segments[k].targetStart);
            TablesOk(rope) && |rope.cos| == n && !StoreIsKept(rope, segments)
  {
    hide StoreIsKept, LeftTurn, TablesOk;
    assert segments[k].Valid();
    var rope := QuarterAt(n, segments[k].targetStart);
    QuarterIsOk(n, segments[k].targetStart);
    OneLoadTurns(segments, n, k, |segments|);
    assert segments[..|segments|] == segments;
    StoreIsKeptIff(rope, segments);
    assert NoTurn(1).cos[0] == 1.0;
    assert LeftTurn(rope, segments, segments[k].segmentId, 0) != NoTurn(rope.rotaryDim / 2);
  }

  /** And it leaves every stored tensor as it was, for all unit-norm tables, if and only if no segment moves. */
  lemma SameDeviceKeepsStoreIff(segments: seq<BlendSegment>, n: nat)
    requires WithinRows(segments, n) && AllValid(segments) && Disjoint(segments)
    ensures StoreAlwaysKept(segments, n) <==> forall i :: 0 <= i < |segments| ==> Stationary(segments[i])
  {
    hide TablesOk, ShapedHosts, HostsAfter;
    if forall i :: 0 <= i < |segments| ==> Stationary(segments[i]) {
      forall rope: Rope.Rotary | TablesOk(rope) && |rope.cos| == n ensures StoreIsKept(rope, segments) {
        forall hosts: Hosts<Rope.Key> | Stored(hosts, segments) && ShapedHosts(rope, hosts)
          ensures HostsAfter(Relocating(rope), segments, hosts, true) == hosts
        {
          StationaryHosts(rope, segments, hosts);
        }
      }
    } else {
      var k :| 0 <= k < |segments| && !Stationary(segments[k]);
      MoveTurnsStore(segments, n, k);
    }
  }

  lemma StationaryHosts(rope: Rope.Rotary, segments: seq<BlendSegment>, hosts: Hosts<Rope.Key>)
    requires AllValid(segments) && Stored(hosts, segments)
        && forall i :: 0 <= i < |segments| ==> Stationary(segments[i])
    ensures HostsAfter(Relocating(rope), segments, hosts, true) == hosts
  {
    hide HostsAfter, Stationary;
    forall id | id in hosts
      ensures id in HostsAfter(Relocating(rope), segments, hosts, true)
          && HostsAfter(Relocating(rope), segments, hosts, true)[id] == hosts[id] {
      UnmovedIsUnchanged(Relocating(rope), segments, hosts, id);
    }
  }

  /** Tables with no turn at positions 0 and 1 and a quarter turn at position 2. */
  function QuarterAtTwo(): Rope.Rotary { QuarterAt(3, 2) }

  /** One token stored at position 1 and placed at 0 and at 2: the displacements add up to nothing, but the second
      target reads an unturned key and the stored one ends up turned by a quarter. */
  lemma CancellingDisplacementsTurn()
    ensures var id := SegmentId("m", 0, 1, 1);
            var segments := [BlendSegment(id, 0), BlendSegment(id, 2)];
            && AllValid(segments) && Disjoint(segments) && WithinRows(segments, 3)
            && TablesOk(QuarterAtTwo()) && InTables(QuarterAtTwo(), segments)
            && LeftTurn(QuarterAtTwo(), segments, id, 0) == QUARTER && !StoreIsKept(QuarterAtTwo(), segments)
  {
    var id := SegmentId("m", 0, 1, 1);
    var segments := [BlendSegment(id, 0), BlendSegment(id, 2)];
    MoveTurnsStore(segments, 3, 1);
    OneLoadTurns(segments, 3, 1, 2);
    assert segments[..2] == segments;
  }
}
