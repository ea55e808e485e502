/** Rolling 64-bit content hashes: the Horner loop for one chunk and the vectorised
    dot product that hashes every window of a prompt at once. */
module Hashing {
  import opened Wrappers

  /** A token id as it fits an unsigned 64-bit array element. */
  type Token = t: int | 0 <= t < 0x1_0000_0000_0000_0000

  const MODULUS: nat := 0x1_0000_0000_0000_0000
  const POLY_BASE: nat := 1_000_003

  // ---------------------------------------------------------------- modular arithmetic

  function Mod(x: int): (r: nat)
    ensures r < MODULUS
  {
    x % MODULUS
  }

  lemma ModShift(q: int, x: int)
    ensures Mod(MODULUS * q + x) == Mod(x)
  {
  }

  lemma ModAdd(a: int, b: int)
    ensures Mod(Mod(a) + Mod(b)) == Mod(a + b)
    ensures Mod(Mod(a) + b) == Mod(a + b)
  {
    ModShift(a / MODULUS, Mod(a) + b);
    ModShift(b / MODULUS, Mod(a) + Mod(b));
  }

  lemma ModMulLeft(a: int, b: int)
    ensures Mod(Mod(a) * b) == Mod(a * b)
  {
    var q := a / MODULUS;
    assert a * b == MODULUS * (q * b) + Mod(a) * b by {
      assert a == MODULUS * q + Mod(a);
      Distribute(MODULUS * q, Mod(a), b);
      Associate(MODULUS, q, b);
    }
    ModShift(q * b, Mod(a) * b);
  }

  lemma Distribute(x: int, y: int, z: int)
    ensures (x + y) * z == x * z + y * z
  {
  }

  lemma Associate(x: int, y: int, z: int)
    ensures (x * y) * z == x * (y * z)
  {
  }

  lemma ModMul(a: int, b: int)
    ensures Mod(Mod(a) * Mod(b)) == Mod(a * b)
  {
    ModMulLeft(a, Mod(b));
    assert a * Mod(b) == Mod(b) * a;
    ModMulLeft(b, a);
    assert b * a == a * b;
  }

  // ---------------------------------------------------------------- the exact polynomial

  /** The unwrapped polynomial value whose residue both hash forms compute. */
  function Polynomial(tokens: seq<Token>): int
  {
    if tokens == [] then 0
    else Polynomial(tokens[..|tokens| - 1]) * POLY_BASE + (tokens[|tokens| - 1] as int + 1)
  }

  function Power(exponent: nat): nat
  {
    if exponent == 0 then 1 else POLY_BASE * Power(exponent - 1)
  }

  // ---------------------------------------------------------------- content_hash

  function TokenValue(token: Token): nat
  {
    Mod(token + 1)
  }

  /** Horner form with a mask after every step. */
  function HashOf(tokens: seq<Token>): (h: nat)
    ensures h < MODULUS
  {
    if tokens == [] then 0
    else Mod(HashOf(tokens[..|tokens| - 1]) * POLY_BASE + TokenValue(tokens[|tokens| - 1]))
  }

  method ContentHash(tokens: seq<Token>) returns (value: nat)
    ensures value == HashOf(tokens)
  {
    value := 0;
    for i := 0 to |tokens|
      invariant value == HashOf(tokens[..i])
    {
      assert tokens[..i + 1][..i] == tokens[..i];
      value := Mod(value * POLY_BASE + TokenValue(tokens[i]));
    }
    assert tokens[..|tokens|] == tokens;
  }

  lemma {:induction false} HashIsPolynomialResidue(tokens: seq<Token>)
    ensures HashOf(tokens) == Mod(Polynomial(tokens))
  {
    if tokens != [] {
      var front, last := tokens[..|tokens| - 1], tokens[|tokens| - 1];
      HashIsPolynomialResidue(front);
      ModMulLeft(Polynomial(front), POLY_BASE);
      HornerStep(HashOf(front) * POLY_BASE, Polynomial(front) * POLY_BASE, last as int + 1);
    }
  }

  lemma HornerStep(wrapped: int, exact: int, v: int)
    requires Mod(wrapped) == Mod(exact)
    ensures Mod(wrapped + Mod(v)) == Mod(exact + v)
  {
    ModAdd(wrapped, v);
    ModAdd(exact, v);
    ModAdd(wrapped, Mod(v));
  }

  // ---------------------------------------------------------------- rolling_hash_values

  /** Descending powers of the base, each reduced to 64 bits. */
  function WindowPowers(window: nat): seq<nat>
  {
    seq(window, i requires 0 <= i < window => Mod(Power(window - 1 - i)))
  }

  /** The token array after conversion to unsigned 64-bit words and the wrapping addition of one. */
  function ShiftedWords(tokens: seq<Token>): seq<nat>
  {
    seq(|tokens|, i requires 0 <= i < |tokens| => Mod(Mod(tokens[i]) + 1))
  }

  /** A 64-bit dot product: every product and every partial sum wraps. */
  function WrappedDot(xs: seq<nat>, ys: seq<nat>): nat
    requires |xs| == |ys|
  {
    if xs == [] then 0
    else
      var n := |xs| - 1;
      Mod(WrappedDot(xs[..n], ys[..n]) + Mod(xs[n] * ys[n]))
  }

  datatype HashError = NonPositiveWindow

  function WindowHash(tokens: seq<Token>, window: nat, start: nat): nat
    requires start + window <= |tokens|
  {
    WrappedDot(ShiftedWords(tokens)[start..start + window], WindowPowers(window))
  }

  /** One hash per full window; none when the input is shorter than a window. */
  function WindowHashes(tokens: seq<Token>, window: nat): (hashes: seq<nat>)
    requires window > 0
  {
    if |tokens| < window then []
    else seq(|tokens| - window + 1,
             start requires 0 <= start < |tokens| - window + 1 => WindowHash(tokens, window, start))
  }

  // ---------------------------------------------------------------- the two forms agree

  /** The exact dot product of the tokens with powers running down from `top`. */
  function ExactDot(tokens: seq<Token>, top: nat): int
    requires |tokens| <= top + 1
  {
    if tokens == [] then 0
    else ExactDot(tokens[..|tokens| - 1], top) + (tokens[|tokens| - 1] as int + 1) * Power(top + 1 - |tokens|)
  }

  lemma {:induction false} WrappedDotIsExactResidue(xs: seq<nat>, ys: seq<nat>, tokens: seq<Token>, top: nat)
    requires |xs| == |ys| == |tokens| <= top + 1
    requires forall i :: 0 <= i < |xs| ==> xs[i] == Mod(tokens[i] as int + 1)
    requires forall i :: 0 <= i < |ys| ==> ys[i] == Mod(Power(top - i))
    ensures WrappedDot(xs, ys) == Mod(ExactDot(tokens, top))
  {
    hide Mod, Power;
    if xs == [] {
      assert Mod(0) == 0 by { ModSmall(0); }
    } else {
      var n := |xs| - 1;
      WrappedDotIsExactResidue(xs[..n], ys[..n], tokens[..n], top);
      DotStep(ExactDot(tokens[..n], top), tokens[n] as int + 1, Power(top - n));
    }
  }

  lemma ModSmall(x: nat)
    requires x < MODULUS
    ensures Mod(x) == x
  {
  }

  /** One wrapped multiply-and-add is the residue of the exact one. */
  lemma DotStep(exact: int, v: int, p: int)
    ensures Mod(Mod(exact) + Mod(Mod(v) * Mod(p))) == Mod(exact + v * p)
  {
    hide Mod;
    ModMul(v, p);
    ModAdd(exact, v * p);
  }

  lemma {:induction false} ExactDotShift(tokens: seq<Token>, top: nat)
    requires |tokens| <= top + 1
    ensures ExactDot(tokens, top + 1) == ExactDot(tokens, top) * POLY_BASE
  {
    if tokens != [] {
      var n := |tokens| - 1;
      ExactDotShift(tokens[..n], top);
      var v, p := tokens[n] as int + 1, Power(top - n);
      assert Power(top + 1 - n) == POLY_BASE * p;
      Associate(v, p, POLY_BASE);
      Distribute(ExactDot(tokens[..n], top), v * p, POLY_BASE);
    }
  }

  lemma {:induction false} ExactDotIsPolynomial(tokens: seq<Token>)
    requires tokens != []
    ensures ExactDot(tokens, |tokens| - 1) == Polynomial(tokens)
  {
    var n := |tokens| - 1;
    if n > 0 {
      ExactDotIsPolynomial(tokens[..n]);
      ExactDotShift(tokens[..n], n - 1);
    }
    assert Power(0) == 1;
  }

  /** Every entry of the vectorised result is the Horner hash of its window, for every window
      length and every token value (a token outside 64 bits is wrapped on conversion). */
  lemma RollingEqualsHorner(tokens: seq<Token>, window: nat, start: nat)
    requires window > 0
    requires start + window <= |tokens|
    ensures WindowHash(tokens, window, start) == HashOf(tokens[start..start + window])
  {
    var chunk := tokens[start..start + window];
    var words := ShiftedWords(tokens)[start..start + window];
    forall i | 0 <= i < window
      ensures words[i] == Mod(chunk[i] as int + 1)
    {
      ModAdd(chunk[i], 1);
    }
    WrappedDotIsExactResidue(words, WindowPowers(window), chunk, window - 1);
    ExactDotIsPolynomial(chunk);
    HashIsPolynomialResidue(chunk);
  }

  method RollingHashValues(tokens: seq<Token>, window: int) returns (r: Result<seq<nat>, HashError>)
    ensures r.Raise? <==> window <= 0
    ensures r.Ok? ==> |r.value| == if |tokens| < window then 0 else |tokens| - window + 1
    ensures r.Ok? ==>
              forall start :: 0 <= start < |r.value| ==> r.value[start] == HashOf(tokens[start..start + window])
  {
    if window <= 0 {
      return Raise(NonPositiveWindow);
    }
    var hashes := WindowHashes(tokens, window);
    forall start | 0 <= start < |hashes|
      ensures hashes[start] == HashOf(tokens[start..start + window])
    {
      RollingEqualsHorner(tokens, window, start);
    }
    return Ok(hashes);
  }

  /** Two different chunks can carry the same hash, so a hash alone never identifies tokens. */
  lemma HashCollision()
    ensures HashOf([1, 0]) == HashOf([0, 1_000_003])
  {
    assert [1, 0][..1] == [1] && [0, 1_000_003][..1] == [0];
    assert HashOf([1]) == 2 by { assert [1][..0] == []; }
    assert HashOf([0]) == 1 by { assert [0][..0] == []; }
  }
}
