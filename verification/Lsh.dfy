/**
  Locality-sensitive hashing: every table hashes an embedding by the signs of its random
  projections, and one map holds the buckets of all tables under a key made by a shift and
  an exclusive or.  A 64-bit word is read as the set of its one bits; `f32` as `real`.
*/
module Lsh {
  import opened Prelude

  datatype Uri = Uri(id: nat)

  type Embedding = seq<real>

  /** The positions of the ones of a `u64`. */
  type Word = set<nat>

  const WIDTH: nat := 64
  const SHIFT: nat := 56

  /** `projection(t, i, d)` is the `i`-th random vector of table `t` at dimension `d`. */
  datatype Env = Env(tables: nat, hashSize: nat, projection: (nat, nat, nat) -> seq<real>)

  /** A table never has more projections than a word has bits. */
  function Size(env: Env): nat { if env.hashSize <= WIDTH then env.hashSize else WIDTH }

  // ------------------------------------------------------------------ words

  /** The ones of `n`, from position `i` on. */
  function Ones(n: nat, i: nat): Word
    decreases n
  {
    if n == 0 then {} else (if n % 2 == 1 then {i} else {}) + Ones(n / 2, i + 1)
  }

  function ShiftLeft(w: Word, n: nat): Word { set b | b in w && b + n < WIDTH :: b + n }

  function Xor(a: Word, b: Word): Word { (a - b) + (b - a) }

  /** `bucket_key`. */
  function BucketKey(table: nat, hash: Word): Word { Xor(ShiftLeft(Ones(table, 0), SHIFT), hash) }

  lemma {:induction false} OnesAreHigh(n: nat, i: nat)
    ensures forall b :: b in Ones(n, i) ==> b >= i
    decreases n
  {
    if n > 0 { OnesAreHigh(n / 2, i + 1); }
  }

  lemma {:induction false} OnesInjective(m: nat, n: nat, i: nat)
    requires Ones(m, i) == Ones(n, i)
    ensures m == n
    decreases m
  {
    OnesAreHigh(m / 2, i + 1);
    OnesAreHigh(n / 2, i + 1);
    assert m % 2 == 1 <==> i in Ones(m, i);
    assert n % 2 == 1 <==> i in Ones(n, i);
    if m == 0 || n == 0 {
      OnesNonEmpty(m, i);
      OnesNonEmpty(n, i);
    } else {
      assert Ones(m / 2, i + 1) == Ones(m, i) - {i};
      assert Ones(n / 2, i + 1) == Ones(n, i) - {i};
      OnesInjective(m / 2, n / 2, i + 1);
    }
  }

  lemma {:induction false} OnesNonEmpty(n: nat, i: nat)
    ensures Ones(n, i) == {} <==> n == 0
    decreases n
  {
    if n > 0 {
      OnesNonEmpty(n / 2, i + 1);
      if n % 2 == 1 { assert i in Ones(n, i); }
    }
  }

  function Power2(k: nat): nat { if k == 0 then 1 else 2 * Power2(k - 1) }

  lemma {:induction false} OnesAreLow(n: nat, i: nat, k: nat)
    requires n < Power2(k)
    ensures forall b :: b in Ones(n, i) ==> b < i + k
    decreases k
  {
    if n > 0 { OnesAreLow(n / 2, i + 1, k - 1); }
  }

  ghost predicate Below(w: Word, n: nat) { forall b :: b in w ==> b < n }

  /** Up to 256 tables and 56 bits of hash, the key says both. */
  lemma BucketKeyInjective(s: nat, x: Word, t: nat, y: Word)
    requires s < 256 && t < 256 && Below(x, SHIFT) && Below(y, SHIFT)
    requires BucketKey(s, x) == BucketKey(t, y)
    ensures s == t && x == y
  {
    KeyParts(s, x);
    KeyParts(t, y);
    assert x == y;
    assert Ones(s, 0) == Ones(t, 0);
    OnesInjective(s, t, 0);
  }

  lemma KeyParts(t: nat, x: Word)
    requires t < 256 && Below(x, SHIFT)
    ensures forall b :: b in x <==> b in BucketKey(t, x) && b < SHIFT
    ensures forall b: nat :: b in Ones(t, 0) <==> b + SHIFT in BucketKey(t, x)
  {
    assert Power2(2) == 4 && Power2(4) == 16 && Power2(6) == 64 && Power2(8) == 256;
    OnesAreLow(t, 0, 8);
    forall b: nat ensures b in Ones(t, 0) <==> b + SHIFT in BucketKey(t, x) {
    }
  }

  /**
    Past either bound it does not: the 257th table shares every bucket of the first, and a 57th bit
    looks like a table.
  */
  lemma KeysCollideBeyond(x: Word)
    ensures BucketKey(256, x) == BucketKey(0, x)
    ensures BucketKey(1, {}) == BucketKey(0, {SHIFT})
  {
    assert Ones(1, 0) == {0};
    assert Ones(256, 0) == {8} by {
      assert Ones(1, 8) == {8} && Ones(2, 7) == {8} && Ones(4, 6) == {8} && Ones(8, 5) == {8};
      assert Ones(16, 4) == {8} && Ones(32, 3) == {8} && Ones(64, 2) == {8} && Ones(128, 1) == {8};
    }
    assert ShiftLeft({8}, SHIFT) == {} && ShiftLeft({0}, SHIFT) == {SHIFT} && ShiftLeft({}, SHIFT) == {};
  }

  /** `tables` tables of `size` bits: no two of their hashes share a bucket key. */
  ghost predicate KeysTellApart(tables: nat, size: nat)
  {
    forall s: nat, x: Word, t: nat, y: Word ::
      s < tables && t < tables && Below(x, size) && Below(y, size) && BucketKey(s, x) == BucketKey(t, y) ==>
        s == t && x == y
  }

  /** A single table, or both bounds. */
  predicate WithinBounds(tables: nat, size: nat) { tables <= 1 || (tables <= 256 && size <= SHIFT) }

  /** The keys tell table and hash apart if and only if there is one table, or at most 256 of at most 56 bits. */
  lemma KeysTellApartIff(tables: nat, size: nat)
    requires size <= WIDTH
    ensures KeysTellApart(tables, size) <==> WithinBounds(tables, size)
  {
    KeysCollideBeyond({});
    if WithinBounds(tables, size) {
      forall s: nat, x: Word, t: nat, y: Word
        | s < tables && t < tables && Below(x, size) && Below(y, size) && BucketKey(s, x) == BucketKey(t, y)
        ensures s == t && x == y
      {
        if tables <= 1 { SameTableKeys(s, x, y); } else { BucketKeyInjective(s, x, t, y); }
      }
    } else if tables > 256 {
      assert Below({}, size) && BucketKey(256, {}) == BucketKey(0, {});
    } else {
      assert Below({}, size) && Below({SHIFT}, size) && BucketKey(1, {}) == BucketKey(0, {SHIFT});
    }
  }

  /** Within one table the key always tells hashes apart. */
  lemma SameTableKeys(t: nat, x: Word, y: Word)
    requires BucketKey(t, x) == BucketKey(t, y)
    ensures x == y
  {
    var w := ShiftLeft(Ones(t, 0), SHIFT);
    forall b ensures b in x <==> b in y {
      assert b in Xor(w, x) <==> (b in w) != (b in x);
      assert b in Xor(w, y) <==> (b in w) != (b in y);
    }
  }

  // ------------------------------------------------------------------ hashes

  function Dot(a: seq<real>, b: seq<real>): real
  {
    if a == [] || b == [] then 0.0 else a[0] * b[0] + Dot(a[1..], b[1..])
  }

  /** The first `n` bits of a table's hash: the signs of the projections. */
  function Signs(table: nat, n: nat, e: Embedding, env: Env): (w: Word)
    ensures Below(w, n)
  {
    set i | 0 <= i < n && Dot(e, env.projection(table, i, |e|)) >= 0.0
  }

  function Hash(table: nat, e: Embedding, env: Env): Word { Signs(table, Size(env), e, env) }

  function KeyOf(table: nat, e: Embedding, env: Env): Word { BucketKey(table, Hash(table, e, env)) }

  // ------------------------------------------------------------------ the index

  datatype Item = Item(uri: Uri, embedding: Embedding)

  type Buckets = map<Word, seq<Uri>>

  ghost predicate Holds(b: Buckets, key: Word, u: Uri) { key in b && u in b[key] }

  /** One of the first `n` tables files `e` under `key`. */
  ghost predicate FiledBy(key: Word, e: Embedding, n: nat, env: Env)
  {
    exists t :: 0 <= t < n && KeyOf(t, e, env) == key
  }

  ghost predicate Files(live: set<Item>, key: Word, u: Uri, env: Env)
  {
    exists i :: i in live && i.uri == u && FiledBy(key, i.embedding, env.tables, env)
  }

  /** The buckets hold exactly the live items, each once under each of its keys. */
  ghost predicate Represents(b: Buckets, live: set<Item>, env: Env)
  {
    && (forall key, u :: Holds(b, key, u) <==> Files(live, key, u, env))
    && (forall key :: key in b ==> Distinct(b[key]))
  }

  ghost function Without(live: set<Item>, u: Uri): set<Item> { set i | i in live && i.uri != u }

  /** `LshIndex`; `live` is what has been inserted and not removed since the dimension last changed. */
  class Index {
    const env: Env
    var dimension: Option<nat>
    var buckets: Buckets
    ghost var live: set<Item>

    constructor (env: Env)
      ensures this.env == env && live == {} && Valid()
    {
      this.env, dimension, buckets, live := env, None, map[], {};
    }

    ghost predicate Valid()
      reads this
    {
      && Represents(buckets, live, env)
      && forall i :: i in live ==> dimension == Some(|i.embedding|)
    }

    /** `ensure_dimension`: a new dimension empties the index. */
    method EnsureDimension(d: nat)
      requires Valid()
      modifies this
      ensures Valid() && dimension == Some(d)
      ensures live == if old(dimension) == Some(d) then old(live) else {}
    {
      if dimension != Some(d) {
        dimension := Some(d);
        buckets := map[];
        live := {};
      }
    }

    method Insert(uri: Uri, e: Embedding)
      requires Valid()
      modifies this
      ensures Valid()
      ensures if e == [] then live == old(live) && dimension == old(dimension)
              else dimension == Some(|e|) && live == (if old(dimension) == Some(|e|) then old(live)
                else {}) + {Item(uri, e)}
    {
      if e == [] { return; }
      EnsureDimension(|e|);
      ghost var before := buckets;
      for t := 0 to env.tables
        invariant forall key, u :: Holds(buckets, key, u) <==>
                  Holds(before, key, u) || (u == uri && FiledBy(key, e, t, env))
        invariant forall key :: key in buckets ==> Distinct(buckets[key])
        invariant live == (if old(dimension) == Some(|e|) then old(live) else {}) && dimension == Some(|e|)
      {
        var key := KeyOf(t, e, env);
        ghost var was := buckets;
        var bucket := if key in buckets then buckets[key] else [];
        if uri !in bucket { bucket := bucket + [uri]; }
        buckets := buckets[key := bucket];
        forall k, u ensures Holds(buckets, k, u) <==> Holds(was, k, u) || (u == uri && k == key) {
          if k == key { assert u in buckets[k] <==> Holds(was, k, u) || u == uri; }
        }
      }
      ghost var was := live;
      live := live + {Item(uri, e)};
    }

    /** `query`: everything filed under one of the embedding's keys, each URI once. */
    method Query(e: Embedding) returns (r: seq<Uri>)
      requires Valid()
      modifies this
      ensures Valid() && Distinct(r)
      ensures if e == [] then r == [] && live == old(live) && dimension == old(dimension)
              else dimension == Some(|e|) && live == (if old(dimension) == Some(|e|) then old(live) else {})
                   && forall u :: u in r <==> Answers(live, e, u, env)
    {
      if e == [] { return []; }
      EnsureDimension(|e|);
      r := [];
      for t := 0 to env.tables
        invariant Distinct(r)
        invariant forall u :: u in r <==> exists s :: 0 <= s < t && Holds(buckets, KeyOf(s, e, env), u)
      {
        var key := KeyOf(t, e, env);
        ghost var before := r;
        if key in buckets {
          var bucket := buckets[key];
          for i := 0 to |bucket|
            invariant Distinct(r) && forall u :: u in r <==> u in before || u in bucket[..i]
          {
            if bucket[i] !in r { r := r + [bucket[i]]; }
            assert bucket[..i + 1] == bucket[..i] + [bucket[i]];
          }
          assert bucket[..|bucket|] == bucket;
        }
        forall u ensures u in r <==> exists s :: 0 <= s < t + 1 && Holds(buckets, KeyOf(s, e, env), u) {
          assert u in r <==> u in before || Holds(buckets, key, u);
        }
      }
    }

    method Remove(uri: Uri)
      requires Valid()
      modifies this
      ensures Valid() && live == Without(old(live), uri) && dimension == old(dimension)
    {
      var todo := buckets.Keys;
      ghost var before := buckets;
      while todo != {}
        invariant todo <= before.Keys && buckets.Keys == before.Keys
        invariant forall key :: key in todo ==> buckets[key] == before[key]
        invariant forall key :: key in before && key !in todo ==> buckets[key] == Retained(before[key], uri)
        invariant live == old(live) && dimension == old(dimension)
        decreases todo
      {
        var key :| key in todo;
        buckets := buckets[key := Retained(buckets[key], uri)];
        todo := todo - {key};
      }
      RemoveRepresents(before, buckets, live, uri, env);
      live := Without(live, uri);
    }
  }

  /** Something live shares a bucket key with `e`. */
  ghost predicate Answers(live: set<Item>, e: Embedding, u: Uri, env: Env)
  {
    exists s :: 0 <= s < env.tables && Files(live, KeyOf(s, e, env), u, env)
  }

  function Retained(bucket: seq<Uri>, uri: Uri): seq<Uri>
  {
    if bucket == [] then []
    else
      var rest := Retained(bucket[..|bucket| - 1], uri);
      if bucket[|bucket| - 1] != uri then rest + [bucket[|bucket| - 1]] else rest
  }

  lemma {:induction false} RetainedIs(bucket: seq<Uri>, uri: Uri)
    requires Distinct(bucket)
    ensures Distinct(Retained(bucket, uri)) && forall u :: u in Retained(bucket, uri) <==> u in bucket && u != uri
    decreases |bucket|
  {
    if bucket != [] {
      var n := |bucket| - 1;
      RetainedIs(bucket[..n], uri);
      assert bucket == bucket[..n] + [bucket[n]];
      if bucket[n] != uri { DistinctAppend(Retained(bucket[..n], uri), bucket[n]); }
    }
  }

  lemma DistinctAppend(s: seq<Uri>, u: Uri)
    requires Distinct(s) && u !in s
    ensures Distinct(s + [u])
  {
  }

  lemma RemoveRepresents(before: Buckets, after: Buckets, live: set<Item>, uri: Uri, env: Env)
    requires Represents(before, live, env) && after.Keys == before.Keys
    requires forall key :: key in before ==> after[key] == Retained(before[key], uri)
    ensures Represents(after, Without(live, uri), env)
  {
    forall key | key in before
      ensures Distinct(after[key]) && forall u :: u in after[key] <==> u in before[key] && u != uri
    {
      RetainedIs(before[key], uri);
    }
    forall key, u ensures Holds(after, key, u) <==> Files(Without(live, uri), key, u, env) {
      assert Holds(after, key, u) <==> Holds(before, key, u) && u != uri;
      if Holds(before, key, u) && u != uri {
        var i :| i in live && i.uri == u && FiledBy(key, i.embedding, env.tables, env);
        assert i in Without(live, uri);
      }
      if Files(Without(live, uri), key, u, env) {
        var i :| i in Without(live, uri) && i.uri == u && FiledBy(key, i.embedding, env.tables, env);
        assert i in live;
      }
    }
  }

  // ------------------------------------------------------------------ what a query means

  /** `e` and something live of `u` have the same hash in the same table. */
  ghost predicate Near(live: set<Item>, e: Embedding, u: Uri, env: Env)
  {
    exists i, t :: i in live && i.uri == u && 0 <= t < env.tables && Hash(t, i.embedding, env) == Hash(t, e, env)
  }

  /** No query misses a live URI that agrees with it on a table, whatever the sizes. */
  lemma NothingNearIsMissed(live: set<Item>, e: Embedding, u: Uri, env: Env)
    requires Near(live, e, u, env)
    ensures Answers(live, e, u, env)
  {
    var i, t :| i in live && i.uri == u && 0 <= t < env.tables && Hash(t, i.embedding, env) == Hash(t, e, env);
    assert KeyOf(t, i.embedding, env) == KeyOf(t, e, env);
    assert FiledBy(KeyOf(t, e, env), i.embedding, env.tables, env);
    assert Files(live, KeyOf(t, e, env), u, env);
  }

  /** With one table, or within 256 tables and 56 bits, it returns nothing else. */
  lemma OnlyTheNearAreReturned(live: set<Item>, e: Embedding, u: Uri, env: Env)
    requires WithinBounds(env.tables, Size(env))
    ensures Answers(live, e, u, env) <==> Near(live, e, u, env)
  {
    KeysTellApartIff(env.tables, Size(env));
    if Near(live, e, u, env) { NothingNearIsMissed(live, e, u, env); }
    if Answers(live, e, u, env) {
      var s :| 0 <= s < env.tables && Files(live, KeyOf(s, e, env), u, env);
      var i :| i in live && i.uri == u && FiledBy(KeyOf(s, e, env), i.embedding, env.tables, env);
      var t :| 0 <= t < env.tables && KeyOf(t, i.embedding, env) == KeyOf(s, e, env);
      assert BucketKey(t, Hash(t, i.embedding, env)) == BucketKey(s, Hash(s, e, env));
    }
  }

  /** Two embeddings of one dimension that share a bucket key without sharing a hash in any table. */
  ghost predicate FarCollision(e: Embedding, q: Embedding, env: Env)
  {
    && |e| == |q|
    && (exists s, t :: 0 <= s < env.tables && 0 <= t < env.tables && KeyOf(s, q, env) == KeyOf(t, e, env))
    && (forall t :: 0 <= t < env.tables ==> Hash(t, e, env) != Hash(t, q, env))
  }

  /** Whatever the projections are, such a pair is an answer that is not near. */
  lemma FarAnswer(e: Embedding, q: Embedding, u: Uri, env: Env)
    requires FarCollision(e, q, env)
    ensures Answers({Item(u, e)}, q, u, env) && !Near({Item(u, e)}, q, u, env)
  {
    var s, t :| 0 <= s < env.tables && 0 <= t < env.tables && KeyOf(s, q, env) == KeyOf(t, e, env);
    var live := {Item(u, e)};
    assert FiledBy(KeyOf(s, q, env), e, env.tables, env);
    assert Item(u, e) in live && Files(live, KeyOf(s, q, env), u, env);
  }

  /** Live items and a query of one dimension, as an index holds them. */
  ghost predicate OneDimension(live: set<Item>, q: Embedding) { forall i :: i in live ==> |i.embedding| == |q| }

  /** For given projections, queries are exact if and only if no two embeddings collide from afar. */
  lemma QueriesAreExactIff(env: Env)
    ensures (forall live: set<Item>, q, u :: OneDimension(live, q) ==>
            (Answers(live, q, u, env) <==> Near(live, q, u, env)))
            <==> (forall e, q :: !FarCollision(e, q, env))
  {
    if forall e, q :: !FarCollision(e, q, env) {
      forall live: set<Item>, q, u | OneDimension(live, q) ensures Answers(live, q, u, env) <==> Near(live, q, u, env) {
        if Near(live, q, u, env) { NothingNearIsMissed(live, q, u, env); }
        if Answers(live, q, u, env) {
          var s :| 0 <= s < env.tables && Files(live, KeyOf(s, q, env), u, env);
          var i :| i in live && i.uri == u && FiledBy(KeyOf(s, q, env), i.embedding, env.tables, env);
          var t :| 0 <= t < env.tables && KeyOf(t, i.embedding, env) == KeyOf(s, q, env);
          assert !FarCollision(i.embedding, q, env);
        }
      }
    } else {
      var e, q :| FarCollision(e, q, env);
      FarAnswer(e, q, Uri(0), env);
      assert OneDimension({Item(Uri(0), e)}, q);
    }
  }

  // ------------------------------------------------------------------ what a hash says

  /** A dot product is linear in every coordinate, and nothing for a zero vector: that determines it. */
  lemma {:induction false} DotAt(a: seq<real>, b: seq<real>, k: nat, x: real)
    requires k < |a| == |b|
    ensures Dot(a[k := x], b) == Dot(a, b) + (x - a[k]) * b[k]
    decreases |a|
  {
    if k > 0 {
      assert a[k := x][1..] == a[1..][k - 1 := x];
      DotAt(a[1..], b[1..], k - 1, x);
    } else {
      assert a[0 := x][1..] == a[1..];
      Distributes(x, a[0], b[0]);
    }
  }

  lemma Distributes(x: real, y: real, z: real)
    ensures x * z == y * z + (x - y) * z
  {
  }

  lemma {:induction false} DotZero(a: seq<real>, b: seq<real>)
    requires forall k :: 0 <= k < |a| ==> a[k] == 0.0
    ensures Dot(a, b) == 0.0
    decreases |a|
  {
    if a != [] && b != [] { DotZero(a[1..], b[1..]); }
  }

  /** Of two vectors of different lengths the longer one's end does not matter. */
  lemma {:induction false} DotShorter(a: seq<real>, b: seq<real>)
    ensures |a| <= |b| ==> Dot(a, b) == Dot(a, b[..|a|])
    ensures |b| <= |a| ==> Dot(a, b) == Dot(a[..|b|], b)
    decreases |a|
  {
    if a != [] && b != [] {
      DotShorter(a[1..], b[1..]);
      if |a| <= |b| { assert b[..|a|][1..] == b[1..][..|a| - 1]; }
      if |b| <= |a| { assert a[..|b|][1..] == a[1..][..|b| - 1]; }
    }
  }

  function Times(c: real, a: seq<real>): seq<real> { seq(|a|, k requires 0 <= k < |a| => c * a[k]) }

  lemma {:induction false} DotScales(c: real, a: seq<real>, b: seq<real>)
    ensures Dot(Times(c, a), b) == c * Dot(a, b)
    decreases |a|
  {
    if a != [] && b != [] {
      TimesRest(c, a);
      DotScales(c, a[1..], b[1..]);
      ScalesOne(c, a[0], b[0], Dot(a[1..], b[1..]));
    } else {
      assert c * 0.0 == 0.0;
    }
  }

  lemma TimesRest(c: real, a: seq<real>)
    requires a != []
    ensures Times(c, a)[0] == c * a[0] && Times(c, a)[1..] == Times(c, a[1..])
  {
    forall k | 0 <= k < |a| - 1 ensures Times(c, a)[1..][k] == Times(c, a[1..])[k] {
      assert a[1..][k] == a[k + 1];
    }
  }

  lemma ScalesOne(c: real, x: real, y: real, d: real)
    ensures c * x * y + c * d == c * (x * y + d)
  {
  }

  /** Bit `i` is set exactly if there is such a projection and the embedding is not on its far side. */
  lemma HashBits(table: nat, e: Embedding, i: nat, env: Env)
    ensures i in Hash(table, e, env) <==>
            i < env.hashSize && i < 64 && Dot(e, env.projection(table, i, |e|)) >= 0.0
  {
  }

  lemma SignScales(c: real, d: real)
    requires c > 0.0
    ensures c * d >= 0.0 <==> d >= 0.0
  {
    if d < 0.0 { assert c * -d > 0.0; }
  }

  /** A hash depends on the direction of an embedding alone. */
  lemma HashScales(table: nat, c: real, e: Embedding, env: Env)
    requires c > 0.0
    ensures Hash(table, Times(c, e), env) == Hash(table, e, env)
  {
    forall i: nat ensures i in Hash(table, Times(c, e), env) <==> i in Hash(table, e, env) {
      HashBits(table, e, i, env);
      HashBits(table, Times(c, e), i, env);
      DotScales(c, e, env.projection(table, i, |e|));
      SignScales(c, Dot(e, env.projection(table, i, |e|)));
    }
  }

  /** With any table at all, a query of the same direction as a live item finds it. */
  lemma SameDirectionIsFound(live: set<Item>, item: Item, c: real, env: Env)
    requires item in live && c > 0.0 && env.tables > 0
    ensures Answers(live, Times(c, item.embedding), item.uri, env)
  {
    HashScales(0, c, item.embedding, env);
    NothingNearIsMissed(live, Times(c, item.embedding), item.uri, env);
  }
}
