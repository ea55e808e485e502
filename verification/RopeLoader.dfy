/** Loading with rotary relocation: after a load every hit key is the encoding at its own target position. */
module RopeLoader {
  import opened Types
  import opened Loader
  import Rope

  ghost predicate TablesOk(rope: Rope.Rotary) {
    rope.Valid() && forall p: nat :: p < |rope.cos| ==> rope.UnitNorm(p)
  }

  ghost predicate Movable(rope: Rope.Rotary, old_: int, new_: int, key: Rope.Key) {
    rope.Valid() && 0 <= old_ < |rope.cos| && 0 <= new_ < |rope.cos| && Rope.KeyShaped(rope, key)
  }

  /** One token's key moved by the delta rotation; positions outside the tables leave it alone. */
  ghost function MoveKey(rope: Rope.Rotary, old_: int, new_: int, key: Rope.Key): Rope.Key {
    if Movable(rope, old_, new_, key) then Rope.MapHeads(rope, old_, new_, key) else key
  }

  ghost function Relocating(rope: Rope.Rotary): Relocation<Rope.Key> {
    (old_: int, new_: int, key: Rope.Key) => MoveKey(rope, old_, new_, key)
  }

  lemma RelocatingStaysPut(rope: Rope.Rotary)
    requires TablesOk(rope)
    ensures StaysPut(Relocating(rope))
  {
    forall p: int, k: Rope.Key ensures Relocating(rope)(p, p, k) == k {
      if Movable(rope, p, p, k) {
        Rope.HeadsStay(rope, p, k);
      }
    }
  }

  /** The loader's relocation of a key plane is `relocate_key` on it. */
  lemma MovedKeysAreRelocated(rope: Rope.Rotary, olds: seq<nat>, news: seq<nat>, kvs: seq<KV<Rope.Key>>)
    requires rope.Valid() && |olds| == |news| == |kvs|
    requires forall t :: 0 <= t < |kvs| ==>
               olds[t] < |rope.cos| && news[t] < |rope.cos| && Rope.KeyShaped(rope, kvs[t].key)
    ensures var keys := seq(|kvs|, t requires 0 <= t < |kvs| => kvs[t].key);
            var moved := Moved(Relocating(rope), olds, news, kvs);
            |Rope.RelocateKey(rope, olds, news, keys)| == |kvs|
            && forall t :: 0 <= t < |kvs| ==> moved[t] == KV(Rope.RelocateKey(rope, olds, news, keys)[t], kvs[t].value)
  {
    forall t | 0 <= t < |kvs|
      ensures Relocating(rope)(olds[t], news[t], kvs[t].key) == Rope.MapHeads(rope, olds[t], news[t], kvs[t].key) {
      assert Movable(rope, olds[t], news[t], kvs[t].key);
    }
  }

  /** Every stored key is the encoding of its raw key at its source position. */
  ghost predicate StoredEncodings(rope: Rope.Rotary, hosts: Hosts<Rope.Key>, raw: map<SegmentId, seq<Rope.Key>>) {
    rope.Valid() && forall id :: id in hosts ==> StoredEncoding(rope, hosts, raw, id)
  }

  ghost predicate StoredEncoding(rope: Rope.Rotary, hosts: Hosts<Rope.Key>, raw: map<SegmentId, seq<Rope.Key>>,
                                 id: SegmentId)
    requires rope.Valid() && id in hosts
  {
    && id in raw && |raw[id]| == |hosts[id]|
    && forall j :: 0 <= j < |raw[id]| ==>
         && 0 <= id.sourceStart + j < |rope.cos| && Rope.KeyShaped(rope, raw[id][j])
         && hosts[id][j].key == Rope.EncodeHeads(rope, id.sourceStart + j, raw[id][j])
  }

  /** In a loaded span each hit carries the encoding of its raw key at the position it now has, and its own value. */
  lemma HitsAreEncodedInPlace(rope: Rope.Rotary, plan: BlendPlan, hosts: Hosts<Rope.Key>,
                              raw: map<SegmentId, seq<Rope.Key>>, prefix: seq<KV<Rope.Key>>, zero: Rope.Key,
                              b: seq<KV<Rope.Key>>, i: nat, p: int)
    requires TablesOk(rope) && AllValid(plan.segments) && plan.WellFormed() && Stored(hosts, plan.segments)
    requires StoredEncodings(rope, hosts, raw) && Determined(plan, Relocating(rope), hosts, prefix, zero, b)
    requires plan.allocationEnd <= |rope.cos| && i < |plan.segments| && plan.segments[i].Covers(p)
    ensures var s := plan.segments[i]; var j := p - s.targetStart;
            && 0 <= p < |b| && s.segmentId in raw && 0 <= j < |raw[s.segmentId]|
            && Rope.KeyShaped(rope, raw[s.segmentId][j])
            && HasHost(hosts, s)
            && b[p] == KV(Rope.EncodeHeads(rope, p, raw[s.segmentId][j]), hosts[s.segmentId][j].value)
  {
    hide Rope.MapHeads, Rope.EncodeHeads, Rope.KeyShaped, TablesOk;
    var s := plan.segments[i];
    var id, j := s.segmentId, p - s.targetStart;
    assert HasHost(hosts, s) && s.Valid() && StoredEncoding(rope, hosts, raw, id);
    assert HitLoaded(Relocating(rope), hosts, s, b, p);
    EncodedHeadsMove(rope, id.sourceStart + j, p, raw[id][j]);
  }

  lemma EncodedHeadsMove(rope: Rope.Rotary, old_: int, new_: int, raw: Rope.Key)
    requires TablesOk(rope) && Movable(rope, old_, new_, raw)
    ensures Relocating(rope)(old_, new_, Rope.EncodeHeads(rope, old_, raw)) == Rope.EncodeHeads(rope, new_, raw)
  {
    var stored := Rope.EncodeHeads(rope, old_, raw);
    forall h | 0 <= h < |raw|
      ensures Rope.MapHeads(rope, old_, new_, stored)[h] == Rope.EncodeHeads(rope, new_, raw)[h] {
      Rope.RelocationReencodes(rope, old_, new_, raw[h]);
    }
    assert Movable(rope, old_, new_, stored);
    assert Rope.MapHeads(rope, old_, new_, stored) == Rope.EncodeHeads(rope, new_, raw);
  }
}
