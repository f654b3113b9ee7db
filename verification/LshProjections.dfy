/**
  The projections themselves: a mixed 64-bit word for every table, bit and dimension, read as a
  number between minus one and one.  They do produce far answers.
*/
module LshProjections {
  import opened Lsh

  const LARGEST: nat := 0xFFFF_FFFF_FFFF_FFFF

  function Word64(n: nat): bv64 { if n <= LARGEST then n as bv64 else (n % (LARGEST + 1)) as bv64 }

  /** `projection_value` up to the word it mixes; sums and products wrap around. */
  function Mixed(seed: bv64, bit: bv64, dim: bv64): bv64
  {
    var x0 := seed * 0x9E37_79B9_7F4A_7C15 + bit * 0xBF58_476D_1CE4_E5B9 + dim * 0x94D0_49BB_1331_11EB;
    var x1 := (x0 ^ (x0 >> 30)) * 0xBF58_476D_1CE4_E5B9;
    var x2 := (x1 ^ (x1 >> 27)) * 0x94D0_49BB_1331_11EB;
    x2 ^ (x2 >> 31)
  }

  function Unit(x: nat): real { x as real / LARGEST as real }

  /** `projection_value`. */
  function ProjectionValue(seed: nat, bit: nat, dim: nat): real
  {
    Unit(Mixed(Word64(seed), Word64(bit), Word64(dim)) as nat) * 2.0 - 1.0
  }

  /** One random vector before it is normalized. */
  function RawVector(seed: nat, bit: nat, dimension: nat): seq<real>
  {
    seq(dimension, d requires 0 <= d < dimension => ProjectionValue(seed, bit, d))
  }

  function Scaled(v: seq<real>, length: real): seq<real>
    requires length > 0.0
  {
    seq(|v|, d requires 0 <= d < |v| => v[d] / length)
  }

  /** The index as it is made: table `t` has the seed `t`; `norm` is the length of a vector, or a tiny number. */
  function SourceEnv(tables: nat, hashSize: nat, norm: seq<real> -> real): Env
    requires forall v :: norm(v) > 0.0
  {
    Env(tables, hashSize,
        (t: nat, i: nat, n: nat) => Scaled(RawVector(t, i, n), norm(RawVector(t, i, n))))
  }

  /** No projection is zero: the largest word is odd. */
  lemma ProjectionIsSigned(x: nat)
    requires x <= LARGEST
    ensures Unit(x) * 2.0 - 1.0 != 0.0
    ensures Unit(x) * 2.0 - 1.0 > 0.0 <==> x > LARGEST / 2
  {
    var v := Unit(x) * 2.0 - 1.0;
    assert v * LARGEST as real == (2 * x - LARGEST) as real;
  }

  /** In one dimension a bit of the hash is the sign of the embedding times that of the projection. */
  lemma OneBit(t: nat, e: real, p: real, env: Env)
    requires Size(env) == 1 && env.projection(t, 0, 1) == [p]
    ensures Hash(t, [e], env) == if e * p >= 0.0 then {0} else {}
  {
    assert Dot([e], [p]) == e * p + Dot([e][1..], [p][1..]) == e * p;
    assert 0 in Hash(t, [e], env) <==> Dot([e], [p]) >= 0.0;
  }

  lemma OneProjection(t: nat, tables: nat, norm: seq<real> -> real)
    requires forall v :: norm(v) > 0.0
    ensures var v := ProjectionValue(t, 0, 0); SourceEnv(tables, 1, norm).projection(t, 0, 1) == [v / norm([v])]
  {
    var v := ProjectionValue(t, 0, 0);
    assert RawVector(t, 0, 1) == [v];
  }

  lemma Signed(t: nat, v: real, tables: nat, norm: seq<real> -> real)
    requires (forall w :: norm(w) > 0.0) && v == ProjectionValue(t, 0, 0) && v != 0.0
    ensures var env := SourceEnv(tables, 1, norm);
            && Hash(t, [1.0], env) == (if v > 0.0 then {0} else {})
            && Hash(t, [-1.0], env) == (if v > 0.0 then {} else {0})
  {
    OneProjection(t, tables, norm);
    var env, p := SourceEnv(tables, 1, norm), v / norm([v]);
    LengthKeepsSign(v, norm([v]));
    SignedBits(t, p, env);
  }

  lemma SignedBits(t: nat, p: real, env: Env)
    requires Size(env) == 1 && env.projection(t, 0, 1) == [p] && p != 0.0
    ensures Hash(t, [1.0], env) == (if p > 0.0 then {0} else {})
    ensures Hash(t, [-1.0], env) == (if p > 0.0 then {} else {0})
  {
    OneBit(t, 1.0, p, env);
    OneBit(t, -1.0, p, env);
  }

  lemma LengthKeepsSign(v: real, length: real)
    requires length > 0.0
    ensures v / length > 0.0 <==> v > 0.0
    ensures v / length == 0.0 <==> v == 0.0
  {
    assert v / length * length == v;
  }

  /** So opposite embeddings of one dimension differ in every table. */
  lemma OppositesDiffer(t: nat, tables: nat, norm: seq<real> -> real)
    requires forall v :: norm(v) > 0.0
    ensures var env := SourceEnv(tables, 1, norm); Hash(t, [1.0], env) != Hash(t, [-1.0], env)
  {
    NeverZero(t);
    Signed(t, ProjectionValue(t, 0, 0), tables, norm);
  }

  lemma NeverZero(t: nat)
    ensures ProjectionValue(t, 0, 0) != 0.0
  {
    ProjectionIsSigned(Mixed(Word64(t), Word64(0), Word64(0)) as nat);
  }

  lemma MixedFour()
    ensures Mixed(4, 0, 0) == 0xF88B_B8A8_724C_81EC
  {
  }

  lemma MixedTwoSixty()
    ensures Mixed(260, 0, 0) == 0x6926_F323_4C55_DBF2
  {
  }

  /** Seed, bit and dimension each count. */
  lemma MixedOneTwoThree()
    ensures Mixed(1, 2, 3) == 0xBA2C_3F7C_48F0_6983
  {
  }

  lemma WordZero()
    ensures Word64(0) == 0
  {
  }

  lemma WordFour()
    ensures Word64(4) == 4
  {
  }

  lemma WordTwoSixty()
    ensures Word64(260) == 260
  {
  }

  lemma LargeWord()
    ensures (0xF88B_B8A8_724C_81EC as bv64) as nat == 0xF88B_B8A8_724C_81EC
  {
  }

  lemma SmallerWord()
    ensures (0x6926_F323_4C55_DBF2 as bv64) as nat == 0x6926_F323_4C55_DBF2
  {
  }

  lemma FourIsPositive()
    ensures ProjectionValue(4, 0, 0) > 0.0
  {
    WordZero();
    WordFour();
    MixedFour();
    LargeWord();
    ProjectionIsSigned(0xF88B_B8A8_724C_81EC);
  }

  lemma TwoSixtyIsNegative()
    ensures ProjectionValue(260, 0, 0) < 0.0
  {
    WordZero();
    WordTwoSixty();
    MixedTwoSixty();
    SmallerWord();
    ProjectionIsSigned(0x6926_F323_4C55_DBF2);
  }

  /** Tables 4 and 260 share all their keys: nine bits of a table's number do not fit above the hash. */
  lemma SharedKeys(x: Lsh.Word)
    ensures BucketKey(260, x) == BucketKey(4, x)
  {
    assert Ones(1, 2) == {2} && Ones(2, 1) == {2} && Ones(4, 0) == {2};
    assert Ones(1, 8) == {8} && Ones(2, 7) == {8} && Ones(4, 6) == {8} && Ones(8, 5) == {8};
    assert Ones(16, 4) == {8} && Ones(32, 3) == {8} && Ones(65, 2) == {2, 8} && Ones(130, 1) == {2, 8};
    assert Ones(260, 0) == {2, 8};
    assert ShiftLeft({2, 8}, SHIFT) == {2 + SHIFT} == ShiftLeft({2}, SHIFT);
  }

  /** With 261 tables of one bit: a query for minus one returns one, and shares no hash with it. */
  lemma SourceFarAnswer(norm: seq<real> -> real, u: Uri)
    requires forall v :: norm(v) > 0.0
    ensures var env := SourceEnv(261, 1, norm);
            && FarCollision([1.0], [-1.0], env)
            && Answers({Item(u, [1.0])}, [-1.0], u, env) && !Near({Item(u, [1.0])}, [-1.0], u, env)
  {
    var env := SourceEnv(261, 1, norm);
    FourIsPositive();
    TwoSixtyIsNegative();
    SharedKeys({});
    Signed(4, ProjectionValue(4, 0, 0), 261, norm);
    Signed(260, ProjectionValue(260, 0, 0), 261, norm);
    assert KeyOf(4, [-1.0], env) == KeyOf(260, [1.0], env);
    forall t | 0 <= t < env.tables ensures Hash(t, [1.0], env) != Hash(t, [-1.0], env) {
      OppositesDiffer(t, 261, norm);
    }
    FarAnswer([1.0], [-1.0], u, env);
  }
}
