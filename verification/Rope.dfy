/** Moving rotary-encoded keys to new positions, over the reals: the direct delta rotation, the
    shuffle-rotate-shuffle fallback, and exactly when each is right. */
module Rope {

  /** The rotary tables and geometry of one model. Row p holds the cosines and sines of position p. */
  datatype Rotary = Rotary(cos: seq<seq<real>>, sin: seq<seq<real>>, headSize: nat, rotaryDim: nat, neox: bool)
  {
    ghost predicate Valid() {
      && rotaryDim % 2 == 0 && rotaryDim <= headSize && headSize % 2 == 0
      && |cos| == |sin|
      && (forall p :: 0 <= p < |cos| ==> |cos[p]| == rotaryDim / 2)
      && (forall p :: 0 <= p < |sin| ==> |sin[p]| == rotaryDim / 2)
    }

    /** Unscaled tables: every angle at p lies on the unit circle. */
    ghost predicate UnitNorm(p: nat)
      requires p < |cos| == |sin| && |cos[p]| == |sin[p]|
    {
      forall i :: 0 <= i < |cos[p]| ==> cos[p][i] * cos[p][i] + sin[p][i] * sin[p][i] == 1.0
    }
  }

  // ---------------------------------------------------------------- the two pairings

  function First(x: seq<real>, h: nat, neox: bool): (f: seq<real>)
    requires |x| >= 2 * h
    ensures |f| == h
  {
    if neox then x[..h] else seq(h, i requires 0 <= i < h => x[2 * i])
  }

  function Second(x: seq<real>, h: nat, neox: bool): (g: seq<real>)
    requires |x| >= 2 * h
    ensures |g| == h
  {
    if neox then x[h..2 * h] else seq(h, i requires 0 <= i < h => x[2 * i + 1])
  }

  /** `cat` of two halves, or `stack` and flatten of two alternating sequences. */
  function Joined(f: seq<real>, g: seq<real>, neox: bool): (x: seq<real>)
    requires |f| == |g|
    ensures |x| == 2 * |f|
  {
    if neox then f + g
    else seq(2 * |f|, j requires 0 <= j < 2 * |f| => if j % 2 == 0 then f[j / 2] else g[j / 2])
  }

  /** Where the two halves of pair i are found. */
  lemma JoinedAt(f: seq<real>, g: seq<real>, neox: bool, i: nat)
    requires i < |f| == |g|
    ensures Joined(f, g, neox)[if neox then i else 2 * i] == f[i]
    ensures Joined(f, g, neox)[if neox then |f| + i else 2 * i + 1] == g[i]
  {
    if !neox {
      Halves(i);
    }
  }

  lemma Halves(i: nat)
    ensures (2 * i) / 2 == i && (2 * i) % 2 == 0 && (2 * i + 1) / 2 == i && (2 * i + 1) % 2 == 1
  {
  }

  lemma SplitJoined(f: seq<real>, g: seq<real>, tail: seq<real>, neox: bool)
    requires |f| == |g|
    ensures First(Joined(f, g, neox) + tail, |f|, neox) == f
    ensures Second(Joined(f, g, neox) + tail, |f|, neox) == g
    ensures (Joined(f, g, neox) + tail)[2 * |f|..] == tail
  {
    hide Joined;
    var y := Joined(f, g, neox);
    forall i: nat | i < |f|
      ensures First(y + tail, |f|, neox)[i] == f[i] && Second(y + tail, |f|, neox)[i] == g[i]
    {
      JoinedAt(f, g, neox, i);
    }
  }

  lemma JoinedSplit(x: seq<real>, h: nat, neox: bool)
    requires |x| >= 2 * h
    ensures Joined(First(x, h, neox), Second(x, h, neox), neox) + x[2 * h..] == x
  {
    var y := Joined(First(x, h, neox), Second(x, h, neox), neox);
    forall j | 0 <= j < 2 * h ensures y[j] == x[j] {
      assert j == 2 * (j / 2) + j % 2;
    }
  }

  // ---------------------------------------------------------------- rotating

  /** The two components of one rotated pair. */
  function Cosward(x: real, y: real, c: real, s: real): real { x * c - y * s }

  function Sinward(x: real, y: real, c: real, s: real): real { y * c + x * s }

  /** Cosine and sine of the angle from (c, s) to (c', s'). */
  function CosBetween(c: real, s: real, c': real, s': real): real { c' * c + s' * s }

  function SinBetween(c: real, s: real, c': real, s': real): real { s' * c - c' * s }

  function Combine(f: seq<real>, g: seq<real>, c: seq<real>, s: seq<real>): (r: seq<real>)
    requires |f| == |g| == |c| == |s|
    ensures |r| == |f|
  {
    seq(|f|, i requires 0 <= i < |f| => Cosward(f[i], g[i], c[i], s[i]))
  }

  function Cross(f: seq<real>, g: seq<real>, c: seq<real>, s: seq<real>): (r: seq<real>)
    requires |f| == |g| == |c| == |s|
    ensures |r| == |f|
  {
    seq(|f|, i requires 0 <= i < |f| => Sinward(f[i], g[i], c[i], s[i]))
  }

  /** Rotates the first 2h entries by the given angles and passes the rest through. */
  function Rotate(x: seq<real>, c: seq<real>, s: seq<real>, neox: bool): (r: seq<real>)
    requires |c| == |s| && |x| >= 2 * |c|
    ensures |r| == |x|
  {
    var f, g := First(x, |c|, neox), Second(x, |c|, neox);
    Joined(Combine(f, g, c, s), Cross(f, g, c, s), neox) + x[2 * |c|..]
  }

  /** The model's own encoding of a head at position p. */
  function Encode(rope: Rotary, p: nat, x: seq<real>): (r: seq<real>)
    requires rope.Valid() && p < |rope.cos| && |x| == rope.headSize
    ensures |r| == |x|
  {
    Rotate(x, rope.cos[p], rope.sin[p], rope.neox)
  }

  /** The encoding turns each pair by its own angle at p and leaves the rest of the head alone. */
  lemma EncodePairs(rope: Rotary, p: nat, x: seq<real>, i: nat)
    requires rope.Valid() && p < |rope.cos| && |x| == rope.headSize && i < rope.rotaryDim / 2
    ensures var a, b := if rope.neox then i else 2 * i, if rope.neox then rope.rotaryDim / 2 + i else 2 * i + 1;
            && a < b < |x|
            && Encode(rope, p, x)[a] == x[a] * rope.cos[p][i] - x[b] * rope.sin[p][i]
            && Encode(rope, p, x)[b] == x[b] * rope.cos[p][i] + x[a] * rope.sin[p][i]
    ensures Encode(rope, p, x)[rope.rotaryDim..] == x[rope.rotaryDim..]
  {
    hide Joined;
    var h, c, s := rope.rotaryDim / 2, rope.cos[p], rope.sin[p];
    var f, g := First(x, h, rope.neox), Second(x, h, rope.neox);
    JoinedAt(Combine(f, g, c, s), Cross(f, g, c, s), rope.neox, i);
  }

  function DeltaCos(rope: Rotary, old_: nat, new_: nat): (d: seq<real>)
    requires rope.Valid() && old_ < |rope.cos| && new_ < |rope.cos|
    ensures |d| == rope.rotaryDim / 2
  {
    seq(rope.rotaryDim / 2, i requires 0 <= i < rope.rotaryDim / 2 =>
      CosBetween(rope.cos[old_][i], rope.sin[old_][i], rope.cos[new_][i], rope.sin[new_][i]))
  }

  function DeltaSin(rope: Rotary, old_: nat, new_: nat): (d: seq<real>)
    requires rope.Valid() && old_ < |rope.cos| && new_ < |rope.cos|
    ensures |d| == rope.rotaryDim / 2
  {
    seq(rope.rotaryDim / 2, i requires 0 <= i < rope.rotaryDim / 2 =>
      SinBetween(rope.cos[old_][i], rope.sin[old_][i], rope.cos[new_][i], rope.sin[new_][i]))
  }

  /** One head moved by the single delta rotation. */
  function RelocateHead(rope: Rotary, old_: nat, new_: nat, x: seq<real>): (r: seq<real>)
    requires rope.Valid() && old_ < |rope.cos| && new_ < |rope.cos| && |x| == rope.headSize
    ensures |r| == |x|
  {
    Rotate(x, DeltaCos(rope, old_, new_), DeltaSin(rope, old_, new_), rope.neox)
  }

  // ---------------------------------------------------------------- composing rotations

  function AddCos(c1: seq<real>, s1: seq<real>, c2: seq<real>, s2: seq<real>): (c: seq<real>)
    requires |c1| == |s1| == |c2| == |s2|
    ensures |c| == |c1|
  {
    seq(|c1|, i requires 0 <= i < |c1| => Cosward(c2[i], s2[i], c1[i], s1[i]))
  }

  function AddSin(c1: seq<real>, s1: seq<real>, c2: seq<real>, s2: seq<real>): (s: seq<real>)
    requires |c1| == |s1| == |c2| == |s2|
    ensures |s| == |c1|
  {
    seq(|c1|, i requires 0 <= i < |c1| => Sinward(c2[i], s2[i], c1[i], s1[i]))
  }

  lemma PairCompose(x: real, y: real, c1: real, s1: real, c2: real, s2: real)
    ensures Cosward(Cosward(x, y, c1, s1), Sinward(x, y, c1, s1), c2, s2)
        == Cosward(x, y, Cosward(c2, s2, c1, s1), Sinward(c2, s2, c1, s1))
    ensures Sinward(Cosward(x, y, c1, s1), Sinward(x, y, c1, s1), c2, s2)
        == Sinward(x, y, Cosward(c2, s2, c1, s1), Sinward(c2, s2, c1, s1))
  {
  }

  /** Two rotations in a row are the rotation by the sum of the angles, for either pairing. */
  lemma RotateTwice(x: seq<real>, c1: seq<real>, s1: seq<real>, c2: seq<real>, s2: seq<real>, neox: bool)
    requires |c1| == |s1| == |c2| == |s2| && |x| >= 2 * |c1|
    ensures Rotate(Rotate(x, c1, s1, neox), c2, s2, neox)
        == Rotate(x, AddCos(c1, s1, c2, s2), AddSin(c1, s1, c2, s2), neox)
  {
    hide Cosward, Sinward;
    var h := |c1|;
    var f, g := First(x, h, neox), Second(x, h, neox);
    var f1, g1 := Combine(f, g, c1, s1), Cross(f, g, c1, s1);
    SplitJoined(f1, g1, x[2 * h..], neox);
    CombineCompose(f, g, c1, s1, c2, s2);
  }

  lemma CombineCompose(f: seq<real>, g: seq<real>, c1: seq<real>, s1: seq<real>, c2: seq<real>, s2: seq<real>)
    requires |f| == |g| == |c1| == |s1| == |c2| == |s2|
    ensures var f1, g1 := Combine(f, g, c1, s1), Cross(f, g, c1, s1);
            var c, s := AddCos(c1, s1, c2, s2), AddSin(c1, s1, c2, s2);
            Combine(f1, g1, c2, s2) == Combine(f, g, c, s) && Cross(f1, g1, c2, s2) == Cross(f, g, c, s)
  {
    hide Cosward, Sinward;
    var f1, g1 := Combine(f, g, c1, s1), Cross(f, g, c1, s1);
    var c, s := AddCos(c1, s1, c2, s2), AddSin(c1, s1, c2, s2);
    forall i | 0 <= i < |f|
      ensures Combine(f1, g1, c2, s2)[i] == Combine(f, g, c, s)[i] && Cross(f1, g1, c2, s2)[i] == Cross(f, g, c, s)[i]
    {
      PairCompose(f[i], g[i], c1[i], s1[i], c2[i], s2[i]);
    }
  }

  // ---------------------------------------------------------------- relocation is re-encoding

  lemma DeltaScales(c: real, s: real, c': real, s': real)
    ensures Cosward(CosBetween(c, s, c', s'), SinBetween(c, s, c', s'), c, s) == (c * c + s * s) * c'
    ensures Sinward(CosBetween(c, s, c', s'), SinBetween(c, s, c', s'), c, s) == (c * c + s * s) * s'
  {
  }

  /** A key encoded at the old position becomes the same head's encoding at the new position. */
  lemma RelocationReencodes(rope: Rotary, old_: nat, new_: nat, x: seq<real>)
    requires rope.Valid() && old_ < |rope.cos| && new_ < |rope.cos| && |x| == rope.headSize
    requires rope.UnitNorm(old_)
    ensures RelocateHead(rope, old_, new_, Encode(rope, old_, x)) == Encode(rope, new_, x)
  {
    hide Cosward, Sinward, CosBetween, SinBetween, Rotate;
    var c, s, dc, ds := rope.cos[old_], rope.sin[old_], DeltaCos(rope, old_, new_), DeltaSin(rope, old_, new_);
    RotateTwice(x, c, s, dc, ds, rope.neox);
    forall i | 0 <= i < |c|
      ensures AddCos(c, s, dc, ds)[i] == rope.cos[new_][i] && AddSin(c, s, dc, ds)[i] == rope.sin[new_][i]
    {
      DeltaScales(c[i], s[i], rope.cos[new_][i], rope.sin[new_][i]);
    }
    assert AddCos(c, s, dc, ds) == rope.cos[new_] && AddSin(c, s, dc, ds) == rope.sin[new_];
  }

  lemma UnitFactor(x: real, p: real, q: real)
    requires p + q == 1.0
    ensures x * p + x * q == x
  {
    assert x * p + x * q == x * (p + q);
  }

  lemma ChainCos(c: real, s: real, ca: real, sa: real, cc: real, sc: real)
    requires c * c + s * s == 1.0
    ensures Cosward(CosBetween(c, s, cc, sc), SinBetween(c, s, cc, sc), CosBetween(ca, sa, c, s),
                    SinBetween(ca, sa, c, s)) == CosBetween(ca, sa, cc, sc)
  {
    UnitFactor(cc * ca, c * c, s * s);
    UnitFactor(sc * sa, c * c, s * s);
  }

  lemma ChainSin(c: real, s: real, ca: real, sa: real, cc: real, sc: real)
    requires c * c + s * s == 1.0
    ensures Sinward(CosBetween(c, s, cc, sc), SinBetween(c, s, cc, sc), CosBetween(ca, sa, c, s),
                    SinBetween(ca, sa, c, s)) == SinBetween(ca, sa, cc, sc)
  {
    UnitFactor(sc * ca, c * c, s * s);
    UnitFactor(cc * sa, c * c, s * s);
  }

  /** Relocations compose: going through a middle position is the same as going directly. */
  lemma RelocationsCompose(rope: Rotary, a: nat, b: nat, c: nat, x: seq<real>)
    requires rope.Valid() && a < |rope.cos| && b < |rope.cos| && c < |rope.cos| && |x| == rope.headSize
    requires rope.UnitNorm(b)
    ensures RelocateHead(rope, b, c, RelocateHead(rope, a, b, x)) == RelocateHead(rope, a, c, x)
  {
    hide Cosward, Sinward, CosBetween, SinBetween, Rotate;
    var c1, s1, c2, s2 := DeltaCos(rope, a, b), DeltaSin(rope, a, b), DeltaCos(rope, b, c), DeltaSin(rope, b, c);
    RotateTwice(x, c1, s1, c2, s2, rope.neox);
    forall i | 0 <= i < |c1|
      ensures AddCos(c1, s1, c2, s2)[i] == DeltaCos(rope, a, c)[i]
      ensures AddSin(c1, s1, c2, s2)[i] == DeltaSin(rope, a, c)[i]
    {
      ChainCos(rope.cos[b][i], rope.sin[b][i], rope.cos[a][i], rope.sin[a][i], rope.cos[c][i], rope.sin[c][i]);
      ChainSin(rope.cos[b][i], rope.sin[b][i], rope.cos[a][i], rope.sin[a][i], rope.cos[c][i], rope.sin[c][i]);
    }
    assert AddCos(c1, s1, c2, s2) == DeltaCos(rope, a, c) && AddSin(c1, s1, c2, s2) == DeltaSin(rope, a, c);
  }

  lemma NoTurn(x: real, y: real, c: real, s: real)
    requires c * c + s * s == 1.0
    ensures Cosward(x, y, CosBetween(c, s, c, s), SinBetween(c, s, c, s)) == x
    ensures Sinward(x, y, CosBetween(c, s, c, s), SinBetween(c, s, c, s)) == y
  {
    assert CosBetween(c, s, c, s) == 1.0 && SinBetween(c, s, c, s) == 0.0;
  }

  /** Staying in place changes nothing, so returning the key unmoved agrees with rotating it. */
  lemma StayingIsIdentity(rope: Rotary, p: nat, x: seq<real>)
    requires rope.Valid() && p < |rope.cos| && |x| == rope.headSize && rope.UnitNorm(p)
    ensures RelocateHead(rope, p, p, x) == x
  {
    hide Cosward, Sinward, Joined, First, Second, DeltaCos, DeltaSin, Combine, Cross;
    var h := rope.rotaryDim / 2;
    StayingTurnsNothing(rope, p, First(x, h, rope.neox), Second(x, h, rope.neox));
    JoinedSplit(x, h, rope.neox);
  }

  lemma StayingTurnsNothing(rope: Rotary, p: nat, f: seq<real>, g: seq<real>)
    requires rope.Valid() && p < |rope.cos| && rope.UnitNorm(p) && |f| == |g| == rope.rotaryDim / 2
    ensures |DeltaCos(rope, p, p)| == |f| == |DeltaSin(rope, p, p)|
    ensures Combine(f, g, DeltaCos(rope, p, p), DeltaSin(rope, p, p)) == f
    ensures Cross(f, g, DeltaCos(rope, p, p), DeltaSin(rope, p, p)) == g
  {
    hide Cosward, Sinward, CosBetween, SinBetween;
    var dc, ds := DeltaCos(rope, p, p), DeltaSin(rope, p, p);
    forall i: nat | i < |f|
      ensures Combine(f, g, dc, ds)[i] == f[i] && Cross(f, g, dc, ds)[i] == g[i]
    {
      NoTurn(f[i], g[i], rope.cos[p][i], rope.sin[p][i]);
    }
  }

  // ---------------------------------------------------------------- whole key tensors

  type Key = seq<seq<real>>

  ghost predicate KeyShaped(rope: Rotary, key: Key) {
    forall h :: 0 <= h < |key| ==> |key[h]| == rope.headSize
  }

  function MapHeads(rope: Rotary, old_: nat, new_: nat, key: Key): (r: Key)
    requires rope.Valid() && old_ < |rope.cos| && new_ < |rope.cos| && KeyShaped(rope, key)
    ensures KeyShaped(rope, r)
  {
    seq(|key|, h requires 0 <= h < |key| => RelocateHead(rope, old_, new_, key[h]))
  }

  function EncodeHeads(rope: Rotary, p: nat, key: Key): (r: Key)
    requires rope.Valid() && p < |rope.cos| && KeyShaped(rope, key)
    ensures KeyShaped(rope, r)
  {
    seq(|key|, h requires 0 <= h < |key| => Encode(rope, p, key[h]))
  }

  ghost predicate PositionsOk(rope: Rotary, positions: seq<nat>) {
    rope.Valid() && forall t :: 0 <= t < |positions| ==> positions[t] < |rope.cos| && rope.UnitNorm(positions[t])
  }

  /** `relocate_key` with tables: the key itself when no token moves, otherwise one rotation per token and head. */
  function RelocateKey(rope: Rotary, olds: seq<nat>, news: seq<nat>, keys: seq<Key>): seq<Key>
    requires |olds| == |news| == |keys| && rope.Valid()
    requires forall t :: 0 <= t < |keys| ==> olds[t] < |rope.cos| && news[t] < |rope.cos| && KeyShaped(rope, keys[t])
  {
    if olds == news then keys
    else seq(|keys|, t requires 0 <= t < |keys| => MapHeads(rope, olds[t], news[t], keys[t]))
  }

  lemma HeadsStay(rope: Rotary, p: nat, key: Key)
    requires rope.Valid() && p < |rope.cos| && KeyShaped(rope, key) && rope.UnitNorm(p)
    ensures MapHeads(rope, p, p, key) == key
  {
    forall h | 0 <= h < |key| ensures RelocateHead(rope, p, p, key[h]) == key[h] {
      StayingIsIdentity(rope, p, key[h]);
    }
  }

  /** For every token and head: relocating what was encoded at the old positions gives the encoding at the new ones. */
  lemma RelocateKeyReencodes(rope: Rotary, olds: seq<nat>, news: seq<nat>, raw: seq<Key>)
    requires |olds| == |news| == |raw|
    requires PositionsOk(rope, olds) && PositionsOk(rope, news)
    requires forall t :: 0 <= t < |raw| ==> KeyShaped(rope, raw[t])
    ensures var stored := seq(|raw|, t requires 0 <= t < |raw| => EncodeHeads(rope, olds[t], raw[t]));
            RelocateKey(rope, olds, news, stored)
            == seq(|raw|, t requires 0 <= t < |raw| => EncodeHeads(rope, news[t], raw[t]))
  {
    var stored := seq(|raw|, t requires 0 <= t < |raw| => EncodeHeads(rope, olds[t], raw[t]));
    forall t | 0 <= t < |raw|
      ensures MapHeads(rope, olds[t], news[t], stored[t]) == EncodeHeads(rope, news[t], raw[t]) {
      forall h | 0 <= h < |raw[t]| {
        RelocationReencodes(rope, olds[t], news[t], raw[t][h]);
      }
    }
  }

  /** The pair either has unit norm at the old position or vanishes at the new one. */
  predicate PairRelocates(rope: Rotary, old_: nat, new_: nat, i: nat)
    requires rope.Valid() && old_ < |rope.cos| && new_ < |rope.cos| && i < rope.rotaryDim / 2
  {
    rope.cos[old_][i] * rope.cos[old_][i] + rope.sin[old_][i] * rope.sin[old_][i] == 1.0
    || (rope.cos[new_][i] == 0.0 && rope.sin[new_][i] == 0.0)
  }

  /** Tables of the rotation that encoding at the old position and then relocating amounts to. */
  function TotalCos(rope: Rotary, old_: nat, new_: nat): (c: seq<real>)
    requires rope.Valid() && old_ < |rope.cos| && new_ < |rope.cos|
    ensures |c| == rope.rotaryDim / 2
  {
    AddCos(rope.cos[old_], rope.sin[old_], DeltaCos(rope, old_, new_), DeltaSin(rope, old_, new_))
  }

  function TotalSin(rope: Rotary, old_: nat, new_: nat): (s: seq<real>)
    requires rope.Valid() && old_ < |rope.cos| && new_ < |rope.cos|
    ensures |s| == rope.rotaryDim / 2
  {
    AddSin(rope.cos[old_], rope.sin[old_], DeltaCos(rope, old_, new_), DeltaSin(rope, old_, new_))
  }

  lemma TotalPair(rope: Rotary, old_: nat, new_: nat, i: nat)
    requires rope.Valid() && old_ < |rope.cos| && new_ < |rope.cos| && i < rope.rotaryDim / 2
    ensures TotalCos(rope, old_, new_)[i] == rope.cos[new_][i] && TotalSin(rope, old_, new_)[i] == rope.sin[new_][i]
            <==> PairRelocates(rope, old_, new_, i)
  {
    hide Cosward, Sinward, CosBetween, SinBetween;
    var c, s, c', s' := rope.cos[old_][i], rope.sin[old_][i], rope.cos[new_][i], rope.sin[new_][i];
    DeltaScales(c, s, c', s');
    ScaledIsSame(c * c + s * s, c', s');
  }

  lemma RelocatedEncoding(rope: Rotary, old_: nat, new_: nat, x: seq<real>)
    requires rope.Valid() && old_ < |rope.cos| && new_ < |rope.cos| && |x| == rope.headSize
    ensures RelocateHead(rope, old_, new_, Encode(rope, old_, x))
        == Rotate(x, TotalCos(rope, old_, new_), TotalSin(rope, old_, new_), rope.neox)
  {
    hide Rotate;
    RotateTwice(x, rope.cos[old_], rope.sin[old_], DeltaCos(rope, old_, new_), DeltaSin(rope, old_, new_), rope.neox);
  }

  ghost predicate ReencodesEveryKey(rope: Rotary, old_: nat, new_: nat)
    requires rope.Valid() && old_ < |rope.cos| && new_ < |rope.cos|
  {
    forall x: seq<real> :: |x| == rope.headSize ==>
      RelocateHead(rope, old_, new_, Encode(rope, old_, x)) == Encode(rope, new_, x)
  }

  lemma OneRotation(rope: Rotary, old_: nat, new_: nat, x: seq<real>)
    requires rope.Valid() && old_ < |rope.cos| && new_ < |rope.cos| && |x| == rope.headSize
    ensures var c', s' := rope.cos[new_], rope.sin[new_];
            && |c'| == |s'| == rope.rotaryDim / 2 && 2 * |c'| <= |x|
            && (RelocateHead(rope, old_, new_, Encode(rope, old_, x)) == Encode(rope, new_, x)
                <==>
                Rotate(x, TotalCos(rope, old_, new_), TotalSin(rope, old_, new_), rope.neox)
                == Rotate(x, c', s', rope.neox))
  {
    hide Rotate, TotalCos, TotalSin, RelocateHead;
    RelocatedEncoding(rope, old_, new_, x);
  }

  lemma ReencodingIsOneRotation(rope: Rotary, old_: nat, new_: nat)
    requires rope.Valid() && old_ < |rope.cos| && new_ < |rope.cos|
    ensures ReencodesEveryKey(rope, old_, new_)
            <==> SameRotation(TotalCos(rope, old_, new_), TotalSin(rope, old_, new_), rope.cos[new_], rope.sin[new_],
                              rope.headSize, rope.neox)
  {
    hide Rotate, TotalCos, TotalSin, RelocateHead, Encode;
    var tc, ts := TotalCos(rope, old_, new_), TotalSin(rope, old_, new_);
    var c', s' := rope.cos[new_], rope.sin[new_];
    assert |c'| == |s'| == |tc| == |ts| && 2 * |c'| <= rope.headSize;
    forall x: seq<real> | |x| == rope.headSize
      ensures RelocateHead(rope, old_, new_, Encode(rope, old_, x)) == Encode(rope, new_, x)
              <==> Rotate(x, tc, ts, rope.neox) == Rotate(x, c', s', rope.neox)
    {
      OneRotation(rope, old_, new_, x);
    }
  }

  /** Relocation re-encodes every key precisely when each pair has unit norm at the old position or a
      vanishing rotation at the new one. */
  lemma RelocationIsExactIffUnitNorm(rope: Rotary, old_: nat, new_: nat)
    requires rope.Valid() && old_ < |rope.cos| && new_ < |rope.cos|
    ensures ReencodesEveryKey(rope, old_, new_) <==> forall i: nat :: i < rope.rotaryDim / 2 ==>
        PairRelocates(rope, old_, new_, i)
  {
    hide TotalCos, TotalSin, PairRelocates, ReencodesEveryKey, SameRotation;
    var tc, ts := TotalCos(rope, old_, new_), TotalSin(rope, old_, new_);
    ReencodingIsOneRotation(rope, old_, new_);
    SameRotationIff(tc, ts, rope.cos[new_], rope.sin[new_], rope.headSize, rope.neox);
    forall i: nat | i < rope.rotaryDim / 2
      ensures tc[i] == rope.cos[new_][i] && ts[i] == rope.sin[new_][i] <==> PairRelocates(rope, old_, new_, i)
    {
      TotalPair(rope, old_, new_, i);
    }
    if forall i: nat :: i < rope.rotaryDim / 2 ==> PairRelocates(rope, old_, new_, i) {
      forall i | 0 <= i < |tc| ensures tc[i] == rope.cos[new_][i] && ts[i] == rope.sin[new_][i] {
        assert PairRelocates(rope, old_, new_, i);
      }
    }
  }

  lemma ScaledIsSame(n: real, c: real, s: real)
    ensures n * c == c && n * s == s <==> n == 1.0 || (c == 0.0 && s == 0.0)
  {
    assert n * c - c == (n - 1.0) * c && n * s - s == (n - 1.0) * s;
  }

  ghost predicate SameRotation(c: seq<real>, s: seq<real>, c': seq<real>, s': seq<real>, size: nat, neox: bool)
    requires |c| == |s| == |c'| == |s'| && size >= 2 * |c|
  {
    forall x: seq<real> :: |x| == size ==> Rotate(x, c, s, neox) == Rotate(x, c', s', neox)
  }

  /** Two rotations agree on every vector exactly when their tables agree. */
  lemma SameRotationIff(c: seq<real>, s: seq<real>, c': seq<real>, s': seq<real>, size: nat, neox: bool)
    requires |c| == |s| == |c'| == |s'| && size >= 2 * |c|
    ensures SameRotation(c, s, c', s', size, neox)
            <==> (forall i :: 0 <= i < |c| ==> c[i] == c'[i] && s[i] == s'[i])
  {
    hide Rotate;
    if forall i :: 0 <= i < |c| ==> c[i] == c'[i] && s[i] == s'[i] {
      assert c == c' && s == s';
    }
    if SameRotation(c, s, c', s', size, neox) {
      var ones, zeros := seq(|c|, _ => 1.0), seq(|c|, _ => 0.0);
      var x := Joined(ones, zeros, neox) + seq(size - 2 * |c|, _ => 0.0);
      assert Rotate(x, c, s, neox) == Rotate(x, c', s', neox);
      UnitProbe(c, s, x, neox);
      UnitProbe(c', s', x, neox);
    }
  }

  /** Rotating the vector of unit first components shows the tables themselves. */
  lemma UnitProbe(c: seq<real>, s: seq<real>, x: seq<real>, neox: bool)
    requires |c| == |s| && |x| >= 2 * |c|
    requires x == Joined(seq(|c|, _ => 1.0), seq(|c|, _ => 0.0), neox) + seq(|x| - 2 * |c|, _ => 0.0)
    ensures First(Rotate(x, c, s, neox), |c|, neox) == c && Second(Rotate(x, c, s, neox), |c|, neox) == s
  {
    hide Rotate, Joined, First, Second;
    var ones, zeros := seq(|c|, _ => 1.0), seq(|c|, _ => 0.0);
    SplitJoined(ones, zeros, seq(|x| - 2 * |c|, _ => 0.0), neox);
    RotateParts(x, c, s, neox);
    forall i | 0 <= i < |c| ensures Combine(ones, zeros, c, s)[i] == c[i] && Cross(ones, zeros, c, s)[i] == s[i] {
    }
    assert Combine(ones, zeros, c, s) == c && Cross(ones, zeros, c, s) == s;
  }

  lemma RotateParts(x: seq<real>, c: seq<real>, s: seq<real>, neox: bool)
    requires |c| == |s| && |x| >= 2 * |c|
    ensures var f, g := First(x, |c|, neox), Second(x, |c|, neox);
            && First(Rotate(x, c, s, neox), |c|, neox) == Combine(f, g, c, s)
            && Second(Rotate(x, c, s, neox), |c|, neox) == Cross(f, g, c, s)
            && Rotate(x, c, s, neox)[2 * |c|..] == x[2 * |c|..]
  {
    var f, g := First(x, |c|, neox), Second(x, |c|, neox);
    SplitJoined(Combine(f, g, c, s), Cross(f, g, c, s), x[2 * |c|..], neox);
  }

  // ---------------------------------------------------------------- the fallback without tables

  /** Swaps the halves, or the members of each pair, over the whole head. */
  function ShuffleHalves(x: seq<real>, neox: bool): (r: seq<real>)
    requires |x| % 2 == 0
    ensures |r| == |x|
  {
    Joined(Second(x, |x| / 2, neox), First(x, |x| / 2, neox), neox)
  }

  /** Shuffle, encode at the old position, shuffle back, encode at the new position. */
  function FallbackHead(rope: Rotary, old_: nat, new_: nat, x: seq<real>): (r: seq<real>)
    requires rope.Valid() && old_ < |rope.cos| && new_ < |rope.cos| && |x| == rope.headSize
    ensures |r| == |x|
  {
    Encode(rope, new_, ShuffleHalves(Encode(rope, old_, ShuffleHalves(x, rope.neox)), rope.neox))
  }

  function Negated(s: seq<real>): seq<real> {
    seq(|s|, i requires 0 <= i < |s| => -s[i])
  }

  lemma FlippedPair(x: real, y: real, c: real, s: real)
    ensures Sinward(y, x, c, s) == Cosward(x, y, c, -s) && Cosward(y, x, c, s) == Sinward(x, y, c, -s)
  {
  }

  lemma FlippedPairs(f: seq<real>, g: seq<real>, c: seq<real>, s: seq<real>)
    requires |f| == |g| == |c| == |s|
    ensures Cross(g, f, c, s) == Combine(f, g, c, Negated(s)) && Combine(g, f, c, s) == Cross(f, g, c, Negated(s))
  {
    hide Cosward, Sinward;
    forall i | 0 <= i < |f|
      ensures Cross(g, f, c, s)[i] == Combine(f, g, c, Negated(s))[i]
      ensures Combine(g, f, c, s)[i] == Cross(f, g, c, Negated(s))[i]
    {
      FlippedPair(f[i], g[i], c[i], s[i]);
    }
  }

  /** Half-split pairs of the full width: rotating between two shuffles rotates backwards. */
  lemma ShuffledHalvesInvert(x: seq<real>, c: seq<real>, s: seq<real>)
    requires |c| == |s| && |x| == 2 * |c|
    ensures ShuffleHalves(Rotate(ShuffleHalves(x, true), c, s, true), true) == Rotate(x, c, Negated(s), true)
  {
    hide Cosward, Sinward;
    var h := |c|;
    var f, g := First(x, h, true), Second(x, h, true);
    var y := ShuffleHalves(x, true);
    assert y == g + f && First(y, h, true) == g && Second(y, h, true) == f;
    FlippedPairs(f, g, c, s);
    var z := Rotate(y, c, s, true);
    assert z == Combine(g, f, c, s) + Cross(g, f, c, s) + [];
    assert First(z, h, true) == Combine(g, f, c, s) && Second(z, h, true) == Cross(g, f, c, s);
    assert x[2 * h..] == [];
  }

  /** Interleaved pairs of any width: shuffling swaps the members of each pair, also of the unrotated ones. */
  lemma ShuffledPairsInvert(x: seq<real>, c: seq<real>, s: seq<real>)
    requires |c| == |s| && |x| % 2 == 0 && |x| >= 2 * |c|
    ensures ShuffleHalves(Rotate(ShuffleHalves(x, false), c, s, false), false) == Rotate(x, c, Negated(s), false)
  {
    hide ShuffleHalves, Rotate;
    var w, r := ShuffleHalves(Rotate(ShuffleHalves(x, false), c, s, false), false), Rotate(x, c, Negated(s), false);
    forall j | 0 <= j < |x| ensures w[j] == r[j] {
      assert j == 2 * (j / 2) + j % 2;
      InterleavedAt(x, c, s, j / 2);
    }
  }

  /** Entry pair i of a shuffled and of a rotated interleaved vector. */
  lemma ShuffledPair(x: seq<real>, i: nat)
    requires |x| % 2 == 0 && 2 * i + 1 < |x|
    ensures ShuffleHalves(x, false)[2 * i] == x[2 * i + 1] && ShuffleHalves(x, false)[2 * i + 1] == x[2 * i]
  {
    assert (2 * i) / 2 == i && (2 * i + 1) / 2 == i && (2 * i + 1) % 2 == 1 && (2 * i) % 2 == 0;
  }

  lemma RotatedPair(x: seq<real>, c: seq<real>, s: seq<real>, i: nat)
    requires |c| == |s| && |x| >= 2 * |c| && 2 * i + 1 < |x|
    ensures var r := Rotate(x, c, s, false);
            if i < |c| then r[2 * i] == Cosward(x[2 * i], x[2 * i + 1], c[i], s[i])
              && r[2 * i + 1] == Sinward(x[2 * i], x[2 * i + 1], c[i], s[i])
            else r[2 * i] == x[2 * i] && r[2 * i + 1] == x[2 * i + 1]
  {
    hide Cosward, Sinward;
    assert (2 * i) / 2 == i && (2 * i + 1) / 2 == i && (2 * i + 1) % 2 == 1 && (2 * i) % 2 == 0;
  }

  lemma InterleavedAt(x: seq<real>, c: seq<real>, s: seq<real>, i: nat)
    requires |c| == |s| && |x| % 2 == 0 && |x| >= 2 * |c| && 2 * i + 1 < |x|
    ensures var w := ShuffleHalves(Rotate(ShuffleHalves(x, false), c, s, false), false);
            var r := Rotate(x, c, Negated(s), false);
            w[2 * i] == r[2 * i] && w[2 * i + 1] == r[2 * i + 1]
  {
    hide Cosward, Sinward, ShuffleHalves, Rotate;
    ShuffledPair(x, i);
    RotatedPair(ShuffleHalves(x, false), c, s, i);
    ShuffledPair(Rotate(ShuffleHalves(x, false), c, s, false), i);
    RotatedPair(x, c, Negated(s), i);
    if i < |c| { FlippedPair(x[2 * i], x[2 * i + 1], c[i], s[i]); }
  }

  lemma BackThenForth(c: real, s: real, c': real, s': real)
    ensures Cosward(c', s', c, -s) == CosBetween(c, s, c', s') && Sinward(c', s', c, -s) == SinBetween(c, s, c', s')
  {
  }

  /** For full-width rotation, and for interleaved pairs of any width, the fallback is the delta rotation on
      every key, whatever the tables hold. */
  lemma FallbackIsDelta(rope: Rotary, old_: nat, new_: nat, x: seq<real>)
    requires rope.Valid() && old_ < |rope.cos| && new_ < |rope.cos| && |x| == rope.headSize
    requires !rope.neox || rope.rotaryDim == rope.headSize
    ensures FallbackHead(rope, old_, new_, x) == RelocateHead(rope, old_, new_, x)
  {
    hide Cosward, Sinward, CosBetween, SinBetween, Rotate, ShuffleHalves;
    var c, s := rope.cos[old_], rope.sin[old_];
    if rope.neox { ShuffledHalvesInvert(x, c, s); } else { ShuffledPairsInvert(x, c, s); }
    RotateTwice(x, c, Negated(s), rope.cos[new_], rope.sin[new_], rope.neox);
    forall i | 0 <= i < |c|
      ensures AddCos(c, Negated(s), rope.cos[new_], rope.sin[new_])[i] == DeltaCos(rope, old_, new_)[i]
      ensures AddSin(c, Negated(s), rope.cos[new_], rope.sin[new_])[i] == DeltaSin(rope, old_, new_)[i]
    {
      BackThenForth(c[i], s[i], rope.cos[new_][i], rope.sin[new_][i]);
    }
    assert AddCos(c, Negated(s), rope.cos[new_], rope.sin[new_]) == DeltaCos(rope, old_, new_);
    assert AddSin(c, Negated(s), rope.cos[new_], rope.sin[new_]) == DeltaSin(rope, old_, new_);
  }

  // ---------------------------------------------------------------- partial rotation breaks the fallback

  ghost predicate HasGeometry(rope: Rotary, headSize: nat, rotaryDim: nat, neox: bool) {
    rope.Valid() && rope.headSize == headSize && rope.rotaryDim == rotaryDim && rope.neox == neox
  }

  /** The fallback moves every key between every two positions as the delta rotation does, for all unit-norm tables. */
  ghost predicate FallbackAgrees(headSize: nat, rotaryDim: nat, neox: bool) {
    forall rope: Rotary, old_: nat, new_: nat, x: seq<real> ::
      HasGeometry(rope, headSize, rotaryDim, neox) && old_ < |rope.cos| && new_ < |rope.cos| && |x| == headSize
      && rope.UnitNorm(old_) && rope.UnitNorm(new_)
      ==> FallbackHead(rope, old_, new_, x) == RelocateHead(rope, old_, new_, x)
  }

  /** With no rotated entries both ways of relocating leave the key alone. */
  lemma NothingRotates(rope: Rotary, old_: nat, new_: nat, x: seq<real>)
    requires rope.Valid() && old_ < |rope.cos| && new_ < |rope.cos| && |x| == rope.headSize && rope.rotaryDim == 0
    ensures FallbackHead(rope, old_, new_, x) == x && RelocateHead(rope, old_, new_, x) == x
  {
    hide ShuffleHalves, Joined;
    JoinedSplit(x, 0, rope.neox);
    EmptyRotation(ShuffleHalves(x, rope.neox), rope.neox);
    ShuffleTwice(x, rope.neox);
    EmptyRotation(ShuffleHalves(ShuffleHalves(x, rope.neox), rope.neox), rope.neox);
    EmptyRotation(x, rope.neox);
    assert rope.cos[old_] == rope.sin[old_] == rope.cos[new_] == rope.sin[new_] == [];
    assert DeltaCos(rope, old_, new_) == DeltaSin(rope, old_, new_) == [];
  }

  lemma EmptyRotation(x: seq<real>, neox: bool)
    ensures Rotate(x, [], [], neox) == x
  {
  }

  lemma ShuffleTwice(x: seq<real>, neox: bool)
    requires |x| % 2 == 0
    ensures ShuffleHalves(ShuffleHalves(x, neox), neox) == x
  {
    hide Joined, First, Second;
    var h := |x| / 2;
    var f, g := First(x, h, neox), Second(x, h, neox);
    SplitJoined(g, f, [], neox);
    assert Joined(g, f, neox) + [] == Joined(g, f, neox);
    JoinedSplit(x, h, neox);
    assert Joined(f, g, neox) + x[2 * h..] == Joined(f, g, neox);
  }

  /** A quarter turn at position 0 and no turn at position 1. */
  function QuarterTurn(headSize: nat, rotaryDim: nat, neox: bool): Rotary {
    var zeros, ones := seq(rotaryDim / 2, _ => 0.0), seq(rotaryDim / 2, _ => 1.0);
    Rotary([zeros, ones], [ones, zeros], headSize, rotaryDim, neox)
  }

  lemma RotatedAt(x: seq<real>, c: seq<real>, s: seq<real>, j: nat)
    requires |c| == |s| && |x| >= 2 * |c| && j < |x|
    ensures Rotate(x, c, s, true)[j] == if j < |c| then Cosward(x[j], x[j + |c|], c[j], s[j])
                                        else if j < 2 * |c| then Sinward(x[j - |c|], x[j], c[j - |c|], s[j - |c|])
                                        else x[j]
  {
    hide Cosward, Sinward;
  }

  /** Shuffling whole-head halves pairs entries that the rotation does not pair: entry rotaryDim / 2 is never turned
      back. */
  lemma PartialFallbackFails(headSize: nat, rotaryDim: nat)
    requires headSize % 2 == 0 && rotaryDim % 2 == 0 && 0 < rotaryDim < headSize
    ensures var rope, x := QuarterTurn(headSize, rotaryDim, true), [1.0] + seq(headSize - 1, _ => 0.0);
            && HasGeometry(rope, headSize, rotaryDim, true) && rope.UnitNorm(0) && rope.UnitNorm(1)
            && FallbackHead(rope, 0, 1, x)[rotaryDim / 2] == 0.0
            && RelocateHead(rope, 0, 1, x)[rotaryDim / 2] == -1.0
  {
    hide Rotate;
    var rope, x := QuarterTurn(headSize, rotaryDim, true), [1.0] + seq(headSize - 1, _ => 0.0);
    var h, m := rotaryDim / 2, headSize / 2;
    var dc, ds := DeltaCos(rope, 0, 1), DeltaSin(rope, 0, 1);
    RotatedAt(x, dc, ds, h);
    var y := ShuffleHalves(x, true);
    var z := Encode(rope, 0, y);
    RotatedAt(y, rope.cos[0], rope.sin[0], h + m);
    var w := ShuffleHalves(z, true);
    assert w[h] == z[m + h] == y[m + h] == x[h] == 0.0;
    assert w[0] == z[m];
    RotatedAt(y, rope.cos[0], rope.sin[0], m);
    RotatedAt(w, rope.cos[1], rope.sin[1], h);
  }

  /** The fallback is the delta rotation precisely for interleaved pairs, full-width rotation and no rotation. */
  lemma FallbackAgreesIff(headSize: nat, rotaryDim: nat, neox: bool)
    requires headSize % 2 == 0 && rotaryDim % 2 == 0 && rotaryDim <= headSize
    ensures FallbackAgrees(headSize, rotaryDim, neox) <==> !neox || rotaryDim == headSize || rotaryDim == 0
  {
    hide FallbackHead, RelocateHead;
    if !neox || rotaryDim == headSize || rotaryDim == 0 {
      forall rope: Rotary, old_: nat, new_: nat, x: seq<real>
        | HasGeometry(rope, headSize, rotaryDim, neox) && old_ < |rope.cos| && new_ < |rope.cos| && |x| == headSize
        ensures FallbackHead(rope, old_, new_, x) == RelocateHead(rope, old_, new_, x)
      {
        if rotaryDim == 0 { NothingRotates(rope, old_, new_, x); } else { FallbackIsDelta(rope, old_, new_, x); }
      }
    } else {
      PartialFallbackFails(headSize, rotaryDim);
      var rope, x := QuarterTurn(headSize, rotaryDim, true), [1.0] + seq(headSize - 1, _ => 0.0);
      assert FallbackHead(rope, 0, 1, x) != RelocateHead(rope, 0, 1, x);
    }
  }
}
