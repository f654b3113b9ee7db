/**
  The caching language-model client: batched embeddings with duplicates folded and hits
  skipped.  At every await the cache may drift: entries may vanish and other callers may put
  theirs.
*/
module EmbeddingBatch {
  import opened Prelude
  import opened CacheKeys

  datatype Vector = Vector(values: seq<int>)

  datatype Digest = Digest(id: int)

  datatype Error = Provider(code: int) | WrongCount | MissingEmbedding

  type Embeddings = map<Digest, Vector>

  /**
    `key` is the hash of a text's pre-image; `embedding` is what the provider computes for a text;
    `provider` answers the `t`-th call, and may fail or return any number of vectors; `drift` is what
    becomes of the cache at the `t`-th await.
  */
  datatype Env = Env(
    key: Bytes -> Digest,
    embedding: Bytes -> Vector,
    provider: (nat, seq<Bytes>) -> Result<seq<Vector>, Error>,
    drift: (nat, Embeddings) -> Embeddings)

  function Key(text: Bytes, env: Env): Digest { env.key(text) }

  ghost predicate Injective(f: Bytes -> Digest) { forall a, b :: f(a) == f(b) ==> a == b }

  /** `embedding_cache_key` under some hash. */
  ghost predicate Hashes(env: Env, hash: Bytes -> Digest)
  {
    forall text :: env.key(text) == hash(EmbeddingPreimage(text))
  }

  /** A hash that does not collide makes keys that tell texts apart. */
  lemma HashedKeysTellApart(env: Env, hash: Bytes -> Digest)
    requires Hashes(env, hash) && Injective(hash)
    ensures Injective(env.key)
  {
    forall a, b | env.key(a) == env.key(b) ensures a == b { EmbeddingPreimageInjective(a, b); }
  }

  /** What the cache says about a text is its embedding. */
  ghost predicate Sound(m: Embeddings, env: Env)
  {
    forall text :: Key(text, env) in m ==> m[Key(text, env)] == env.embedding(text)
  }

  /** Keys tell texts apart, a complete answer is right, and whatever others do to the cache keeps it sound. */
  ghost predicate Lawful(env: Env)
  {
    && Injective(env.key)
    && (forall t, texts :: var a := env.provider(t, texts);
          a.Ok? && |a.value| == |texts| ==> forall i :: 0 <= i < |texts| ==> a.value[i] == env.embedding(texts[i]))
    && (forall t, m {:trigger env.drift(t, m)} :: Sound(m, env) ==> Sound(env.drift(t, m), env))
  }

  /** Nobody else touches the cache, and it forgets nothing. */
  ghost predicate Still(env: Env) { forall t, m :: env.drift(t, m) == m }

  /** What `n` awaits in a row, from the `t`-th on, make of the cache. */
  function Drifted(m: Embeddings, t: nat, n: nat, env: Env): Embeddings
  {
    if n == 0 then m else env.drift(t + n - 1, Drifted(m, t, n - 1, env))
  }

  lemma {:induction false} StillKeeps(m: Embeddings, t: nat, n: nat, env: Env)
    requires Still(env)
    ensures Drifted(m, t, n, env) == m
  {
    if n > 0 { StillKeeps(m, t, n - 1, env); }
  }

  lemma InsertKeepsSound(m: Embeddings, text: Bytes, env: Env)
    requires Injective(env.key) && Sound(m, env)
    ensures Sound(m[Key(text, env) := env.embedding(text)], env)
  {
  }

  // ------------------------------------------------------------------ what is to be fetched

  /** The texts whose lookup missed, once each, in the order they were first missed. */
  function Missed(texts: seq<Bytes>, hits: seq<bool>): (r: seq<Bytes>)
    requires |hits| == |texts|
  {
    if texts == [] then []
    else
      var n := |texts| - 1;
      var before := Missed(texts[..n], hits[..n]);
      if hits[n] || texts[n] in before then before else before + [texts[n]]
  }

  lemma {:induction false} MissedIs(texts: seq<Bytes>, hits: seq<bool>)
    requires |hits| == |texts|
    ensures Distinct(Missed(texts, hits))
    ensures forall x :: x in Missed(texts, hits) <==> exists i :: 0 <= i < |texts| && !hits[i] && texts[i] == x
    decreases |texts|
  {
    if texts != [] {
      var n := |texts| - 1;
      MissedIs(texts[..n], hits[..n]);
    }
  }

  lemma {:induction false} AllHit(texts: seq<Bytes>, hits: seq<bool>)
    requires |hits| == |texts| && forall i :: 0 <= i < |hits| ==> hits[i]
    ensures Missed(texts, hits) == []
    decreases |texts|
  {
    if texts != [] { AllHit(texts[..|texts| - 1], hits[..|texts| - 1]); }
  }

  /** In the order of first misses: an earlier entry was missed before any miss of a later one. */
  lemma {:induction false} MissedInOrder(texts: seq<Bytes>, hits: seq<bool>, a: nat, b: nat, j: nat)
    requires |hits| == |texts| && a < b < |Missed(texts, hits)|
    requires j < |texts| && !hits[j] && texts[j] == Missed(texts, hits)[b]
    ensures exists i :: 0 <= i < j && !hits[i] && texts[i] == Missed(texts, hits)[a]
    decreases |texts|
  {
    var n := |texts| - 1;
    var before := Missed(texts[..n], hits[..n]);
    MissedIs(texts[..n], hits[..n]);
    if b < |before| {
      if j < n {
        MissedInOrder(texts[..n], hits[..n], a, b, j);
      } else {
        assert before[b] in before;
        var k :| 0 <= k < n && !hits[..n][k] && texts[..n][k] == before[b];
        MissedInOrder(texts[..n], hits[..n], a, b, k);
      }
    } else {
      assert before[a] in before;
      forall i | 0 <= i < n && !hits[i] ensures texts[i] in before {
        assert texts[..n][i] == texts[i] && !hits[..n][i];
      }
    }
  }

  /** Whether a call has to reach the provider, and what it then gets. */
  function Outcome(fetch: seq<Bytes>, call: nat, env: Env): Result<seq<Vector>, Error>
  {
    if fetch == [] then Ok([])
    else
      var a := env.provider(call, fetch);
      if a.Err? then a else if |a.value| != |fetch| then Err(WrongCount) else a
  }

  /** What a client without a cache would answer. */
  function Plain(texts: seq<Bytes>, env: Env): (r: seq<Vector>)
    ensures |r| == |texts|
  {
    seq(|texts|, i requires 0 <= i < |texts| => env.embedding(texts[i]))
  }

  /** A text that has to wait: where its vector goes, under which key, and where in the batch it will be. */
  datatype Miss = Miss(index: nat, key: Digest, first: nat)

  /** The variables of the first loop; `first` is `first_index_by_key`. */
  datatype Scan = Scan(results: seq<Option<Vector>>, misses: seq<Miss>, fetch: seq<Bytes>, first: map<Digest, nat>)

  ghost predicate HasMiss(misses: seq<Miss>, i: nat) { exists m :: m in misses && m.index == i }

  /** Each of the first `done` texts has its embedding, or a miss when its lookup missed. */
  ghost predicate Covered(s: Scan, texts: seq<Bytes>, hits: seq<bool>, env: Env)
    requires |hits| <= |texts| == |s.results|
  {
    forall i :: 0 <= i < |hits| ==>
      if hits[i] then s.results[i] == Some(env.embedding(texts[i])) else HasMiss(s.misses, i)
  }

  ghost predicate MissOf(m: Miss, texts: seq<Bytes>, fetch: seq<Bytes>, env: Env)
  {
    m.index < |texts| && m.key == Key(texts[m.index], env) && m.first < |fetch| && fetch[m.first] == texts[m.index]
  }

  ghost predicate AllMisses(misses: seq<Miss>, texts: seq<Bytes>, fetch: seq<Bytes>, env: Env)
  {
    forall m {:trigger MissOf(m, texts, fetch, env)} :: m in misses ==> MissOf(m, texts, fetch, env)
  }

  ghost predicate Indexed(first: map<Digest, nat>, fetch: seq<Bytes>, env: Env)
  {
    && (forall i :: 0 <= i < |fetch| ==> Key(fetch[i], env) in first && first[Key(fetch[i], env)] == i)
    && (forall k :: k in first ==> first[k] < |fetch| && Key(fetch[first[k]], env) == k)
  }

  /** Each lookup hit exactly when the cache, as its own await had left it, held the text. */
  ghost predicate HitsMatch(hits: seq<bool>, texts: seq<Bytes>, m: Embeddings, t: nat, env: Env)
  {
    |hits| <= |texts| && forall i :: 0 <= i < |hits| ==> hits[i] == (Key(texts[i], env) in Drifted(m, t, i + 1, env))
  }

  lemma HitsNext(hits: seq<bool>, hit: bool, texts: seq<Bytes>, m: Embeddings, t: nat, env: Env)
    requires HitsMatch(hits, texts, m, t, env) && |hits| < |texts|
    requires hit == (Key(texts[|hits|], env) in env.drift(t + |hits|, Drifted(m, t, |hits|, env)))
    ensures env.drift(t + |hits|, Drifted(m, t, |hits|, env)) == Drifted(m, t, |hits + [hit]|, env)
    ensures HitsMatch(hits + [hit], texts, m, t, env)
  {
  }

  lemma StillHits(hits: seq<bool>, texts: seq<Bytes>, m: Embeddings, t: nat, env: Env)
    requires Still(env) && HitsMatch(hits, texts, m, t, env)
    ensures forall i :: 0 <= i < |hits| ==> hits[i] == (Key(texts[i], env) in m)
  {
    forall i | 0 <= i < |hits| ensures hits[i] == (Key(texts[i], env) in m) { StillKeeps(m, t, i + 1, env); }
  }

  ghost predicate Scanned(s: Scan, texts: seq<Bytes>, hits: seq<bool>, env: Env)
  {
    && |hits| <= |texts| == |s.results|
    && s.fetch == Missed(texts[..|hits|], hits)
    && Covered(s, texts, hits, env) && Indexed(s.first, s.fetch, env)
    && AllMisses(s.misses, texts, s.fetch, env)
  }

  lemma ScanStart(texts: seq<Bytes>, env: Env)
    ensures Scanned(Scan(seq(|texts|, _ => None), [], [], map[]), texts, [], env)
  {
  }

  /** One turn of the first loop. */
  function ScanNext(s: Scan, i: nat, text: Bytes, value: Option<Vector>, env: Env): Scan
    requires i < |s.results|
  {
    var key := Key(text, env);
    if value.Some? then s.(results := s.results[i := value])
    else if key in s.first then s.(misses := s.misses + [Miss(i, key, s.first[key])])
    else s.(misses := s.misses + [Miss(i, key, |s.fetch|)], fetch := s.fetch + [text],
      first := s.first[key := |s.fetch|])
  }

  lemma ScanKeeps(s: Scan, texts: seq<Bytes>, hits: seq<bool>, value: Option<Vector>, env: Env)
    requires Injective(env.key) && Scanned(s, texts, hits, env) && |hits| < |texts|
    requires value.Some? ==> value.value == env.embedding(texts[|hits|])
    ensures Scanned(ScanNext(s, |hits|, texts[|hits|], value, env), texts, hits + [value.Some?], env)
  {
    IndexedIff(s.first, s.fetch, texts[|hits|], env);
    if value.Some? {
      ScanHit(s, texts, hits, value.value, env);
    } else if Key(texts[|hits|], env) in s.first {
      ScanAgain(s, texts, hits, env);
    } else {
      ScanMiss(s, texts, hits, env);
    }
  }

  lemma ScanHit(s: Scan, texts: seq<Bytes>, hits: seq<bool>, v: Vector, env: Env)
    requires Scanned(s, texts, hits, env) && |hits| < |texts| && v == env.embedding(texts[|hits|])
    ensures Scanned(s.(results := s.results[|hits| := Some(v)]), texts, hits + [true], env)
  {
    MissedNext(texts, hits, |hits|, true);
    CoverHit(s, texts, hits, v, env);
    Assembled(s.(results := s.results[|hits| := Some(v)]), texts, hits + [true], env);
  }

  /** A miss that is in the batch already. */
  lemma ScanAgain(s: Scan, texts: seq<Bytes>, hits: seq<bool>, env: Env)
    requires Scanned(s, texts, hits, env) && |hits| < |texts| && Key(texts[|hits|], env) in s.first
    requires texts[|hits|] in s.fetch && s.fetch[s.first[Key(texts[|hits|], env)]] == texts[|hits|]
    ensures var m := Miss(|hits|, Key(texts[|hits|], env), s.first[Key(texts[|hits|], env)]);
            Scanned(s.(misses := s.misses + [m]), texts, hits + [false], env)
  {
    var m := Miss(|hits|, Key(texts[|hits|], env), s.first[Key(texts[|hits|], env)]);
    MissedNext(texts, hits, |hits|, false);
    CoverMiss(s, texts, hits, m, s.misses + [m], env);
    MissesJoined(s.misses, m, texts, s.fetch, env);
    Assembled(s.(misses := s.misses + [m]), texts, hits + [false], env);
  }

  /** The parts of a scan that stands. */
  lemma Assembled(s: Scan, texts: seq<Bytes>, hits: seq<bool>, env: Env)
    requires |hits| <= |texts| == |s.results| && s.fetch == Missed(texts[..|hits|], hits)
    requires Covered(s, texts, hits, env) && Indexed(s.first, s.fetch, env)
    requires AllMisses(s.misses, texts, s.fetch, env)
    ensures Scanned(s, texts, hits, env)
  {
  }

  lemma MissesJoined(misses: seq<Miss>, m: Miss, texts: seq<Bytes>, fetch: seq<Bytes>, env: Env)
    requires MissOf(m, texts, fetch, env) && AllMisses(misses, texts, fetch, env)
    ensures AllMisses(misses + [m], texts, fetch, env)
  {
  }

  /** A miss that joins the batch. */
  lemma ScanMiss(s: Scan, texts: seq<Bytes>, hits: seq<bool>, env: Env)
    requires Scanned(s, texts, hits, env) && |hits| < |texts|
    requires Key(texts[|hits|], env) !in s.first && texts[|hits|] !in s.fetch
    ensures var text := texts[|hits|];
            var m := Miss(|hits|, Key(text, env), |s.fetch|);
            Scanned(Scan(s.results, s.misses + [m], s.fetch + [text], s.first[Key(text, env) := |s.fetch|]),
                    texts, hits + [false], env)
  {
    var text := texts[|hits|];
    var m := Miss(|hits|, Key(text, env), |s.fetch|);
    MissedNext(texts, hits, |hits|, false);
    IndexedNext(s.first, s.fetch, text, env);
    CoverMiss(s, texts, hits, m, s.misses + [m], env);
    MissesStay(s.misses, texts, s.fetch, s.fetch + [text], env);
    MissesJoined(s.misses, m, texts, s.fetch + [text], env);
    var t := Scan(s.results, s.misses + [m], s.fetch + [text], s.first[Key(text, env) := |s.fetch|]);
    Assembled(t, texts, hits + [false], env);
  }

  lemma CoverHit(s: Scan, texts: seq<Bytes>, hits: seq<bool>, v: Vector, env: Env)
    requires |hits| < |texts| == |s.results| && Covered(s, texts, hits, env) && v == env.embedding(texts[|hits|])
    ensures Covered(s.(results := s.results[|hits| := Some(v)]), texts, hits + [true], env)
  {
  }

  lemma CoverMiss(s: Scan, texts: seq<Bytes>, hits: seq<bool>, m: Miss, misses: seq<Miss>, env: Env)
    requires |hits| < |texts| == |s.results| && Covered(s, texts, hits, env) && m.index == |hits|
             && misses == s.misses + [m]
    ensures forall fetch, first :: Covered(Scan(s.results, misses, fetch, first), texts, hits + [false], env)
  {
  }

  lemma MissesStay(misses: seq<Miss>, texts: seq<Bytes>, fetch: seq<Bytes>, more: seq<Bytes>, env: Env)
    requires fetch <= more && AllMisses(misses, texts, fetch, env)
    ensures AllMisses(misses, texts, more, env)
  {
    forall m | m in misses ensures MissOf(m, texts, more, env) { assert MissOf(m, texts, fetch, env); }
  }

  lemma IndexedNext(first: map<Digest, nat>, fetch: seq<Bytes>, text: Bytes, env: Env)
    requires Indexed(first, fetch, env) && Key(text, env) !in first
    ensures Indexed(first[Key(text, env) := |fetch|], fetch + [text], env)
  {
  }

  /** `CachingLlmClient`, its embeddings. */
  class Client {
    var embeddings: Embeddings
    var awaits: nat
    var calls: seq<seq<Bytes>>      // what the provider was asked

    constructor ()
      ensures embeddings == map[] && calls == []
    {
      embeddings, awaits, calls := map[], 0, [];
    }

    method Await(env: Env)
      requires Lawful(env) && Sound(embeddings, env)
      modifies this`embeddings, this`awaits
      ensures Sound(embeddings, env) && embeddings == env.drift(old(awaits), old(embeddings))
              && awaits == old(awaits) + 1
    {
      embeddings := env.drift(awaits, embeddings);
      awaits := awaits + 1;
    }

    method Get(key: Digest, env: Env) returns (v: Option<Vector>)
      requires Lawful(env) && Sound(embeddings, env)
      modifies this`embeddings, this`awaits
      ensures Sound(embeddings, env) && embeddings == env.drift(old(awaits), old(embeddings))
              && awaits == old(awaits) + 1
      ensures v == if key in embeddings then Some(embeddings[key]) else None
    {
      Await(env);
      v := if key in embeddings then Some(embeddings[key]) else None;
    }

    /** Where the first loop stands after `|hits|` lookups, when it began at the `t`-th await with the cache `m`. */
    ghost predicate LookedUp(s: Scan, hits: seq<bool>, texts: seq<Bytes>, m: Embeddings, t: nat, env: Env)
      reads this
    {
      && Sound(embeddings, env) && embeddings == Drifted(m, t, |hits|, env) && awaits == t + |hits|
      && Scanned(s, texts, hits, env) && HitsMatch(hits, texts, m, t, env)
    }

    /** One turn of the first loop. */
    method LookUpNext(s: Scan, i: nat, ghost hits: seq<bool>, texts: seq<Bytes>, ghost m: Embeddings, ghost t: nat,
      env: Env)
      returns (next: Scan, ghost hit: bool)
      requires Lawful(env) && i == |hits| < |texts| && LookedUp(s, hits, texts, m, t, env)
      modifies this`embeddings, this`awaits
      ensures LookedUp(next, hits + [hit], texts, m, t, env)
    {
      var value := Get(Key(texts[i], env), env);
      hit := value.Some?;
      HitsNext(hits, hit, texts, m, t, env);
      ScanKeeps(s, texts, hits, value, env);
      next := ScanNext(s, i, texts[i], value, env);
    }

    /** The first loop: look everything up, and queue what is missing. */
    method LookUp(texts: seq<Bytes>, env: Env) returns (s: Scan, ghost hits: seq<bool>)
      requires Lawful(env) && Sound(embeddings, env)
      modifies this`embeddings, this`awaits
      ensures |hits| == |texts| && LookedUp(s, hits, texts, old(embeddings), old(awaits), env)
    {
      s, hits := Scan(seq(|texts|, _ => None), [], [], map[]), [];
      ScanStart(texts, env);
      for i := 0 to |texts|
        invariant |hits| == i && LookedUp(s, hits, texts, old(embeddings), old(awaits), env)
      {
        ghost var hit;
        s, hit := LookUpNext(s, i, hits, texts, old(embeddings), old(awaits), env);
        hits := hits + [hit];
      }
    }

    /** The last loop: put what was loaded into the cache and into place. */
    method Fill(texts: seq<Bytes>, s: Scan, ghost hits: seq<bool>, loaded: seq<Vector>, env: Env)
      returns (results: seq<Option<Vector>>)
      requires Lawful(env) && Sound(embeddings, env)
      requires |hits| == |texts| && Scanned(s, texts, hits, env)
      requires |loaded| == |s.fetch| && forall i :: 0 <= i < |s.fetch| ==> loaded[i] == env.embedding(s.fetch[i])
      modifies this`embeddings, this`awaits
      ensures Sound(embeddings, env)
      ensures |results| == |texts| && forall i :: 0 <= i < |texts| ==> results[i] == Some(env.embedding(texts[i]))
      ensures Still(env) ==> forall k :: k in old(embeddings) ==> k in embeddings
      ensures Still(env) ==> forall i :: 0 <= i < |texts| && !hits[i] ==> Key(texts[i], env) in embeddings
    {
      results := s.results;
      for n := 0 to |s.misses|
        invariant Sound(embeddings, env) && |results| == |texts|
        invariant forall j :: 0 <= j < |texts| ==>
                  results[j] == Some(env.embedding(texts[j])) || HasMiss(s.misses[n..], j)
        invariant Still(env) ==> forall k :: k in old(embeddings) ==> k in embeddings
        invariant Still(env) ==> forall l :: 0 <= l < n ==> s.misses[l].key in embeddings
      {
        var m := s.misses[n];
        assert m in s.misses && MissOf(m, texts, s.fetch, env) && s.misses[n..] == [m] + s.misses[n + 1..];
        InsertKeepsSound(embeddings, texts[m.index], env);
        embeddings := embeddings[m.key := loaded[m.first]];
        Await(env);
        results := results[m.index := Some(loaded[m.first])];
      }
      if Still(env) { MissesCached(s, texts, hits, embeddings, env); }
    }

    /** `embed_batch`: the answer of a client without a cache, from one provider call at most. */
    method EmbedBatch(texts: seq<Bytes>, env: Env) returns (r: Result<seq<Vector>, Error>, ghost hits: seq<bool>)
      requires Lawful(env) && Sound(embeddings, env)
      modifies this
      ensures Sound(embeddings, env)
      ensures |hits| == |texts|
      ensures r == match Outcome(Missed(texts, hits), |old(calls)|, env) case Ok(_) => Ok(Plain(texts, env))
              case Err(e) => Err(e)
      ensures r.Ok? <==>
              || (forall i :: 0 <= i < |texts| ==> hits[i])
              || (env.provider(|old(calls)|, Missed(texts, hits)).Ok?
                  && |env.provider(|old(calls)|, Missed(texts, hits)).value| == |Missed(texts, hits)|)
      ensures r.Err? ==>
              r.error == if env.provider(|old(calls)|, Missed(texts, hits)).Err?
                         then env.provider(|old(calls)|, Missed(texts, hits)).error else WrongCount
      ensures calls == old(calls) + if Missed(texts, hits) == [] then [] else [Missed(texts, hits)]
      ensures HitsMatch(hits, texts, old(embeddings), old(awaits), env)
      ensures Still(env) && r.Ok? ==> forall i :: 0 <= i < |texts| ==> Key(texts[i], env) in embeddings
    {
      var s;
      s, hits := LookUp(texts, env);
      if Still(env) {
        StillHits(hits, texts, old(embeddings), old(awaits), env);
        StillKeeps(old(embeddings), old(awaits), |texts|, env);
      }
      assert texts[..|texts|] == texts;
      NothingMissedIff(texts, hits);
      var loaded := [];
      if s.fetch != [] {
        var answer := env.provider(|calls|, s.fetch);
        calls := calls + [s.fetch];
        Await(env);
        if answer.Err? { return Err(answer.error), hits; }
        loaded := answer.value;
      }
      if |loaded| != |s.fetch| { return Err(WrongCount), hits; }
      var results := Fill(texts, s, hits, loaded, env);
      if exists i :: 0 <= i < |results| && results[i].None? { return Err(MissingEmbedding), hits; }
      var out := seq(|results|, i requires 0 <= i < |results| => results[i].value);
      assert out == Plain(texts, env);
      r := Ok(out);
    }
  }

  lemma MissesCached(s: Scan, texts: seq<Bytes>, hits: seq<bool>, m: Embeddings, env: Env)
    requires |hits| == |texts| && Scanned(s, texts, hits, env)
    requires forall l :: 0 <= l < |s.misses| ==> s.misses[l].key in m
    ensures forall i :: 0 <= i < |texts| && !hits[i] ==> Key(texts[i], env) in m
  {
    forall i | 0 <= i < |texts| && !hits[i] ensures Key(texts[i], env) in m {
      var l :| 0 <= l < |s.misses| && s.misses[l].index == i;
      assert MissOf(s.misses[l], texts, s.fetch, env);
    }
  }

  lemma NothingMissedIff(texts: seq<Bytes>, hits: seq<bool>)
    requires |hits| == |texts|
    ensures Missed(texts, hits) == [] <==> forall i :: 0 <= i < |texts| ==> hits[i]
  {
    MissedIs(texts, hits);
    if forall i :: 0 <= i < |texts| ==> hits[i] {
      AllHit(texts, hits);
    } else {
      var i :| 0 <= i < |texts| && !hits[i];
      assert texts[i] in Missed(texts, hits);
    }
  }

  lemma MissedNext(texts: seq<Bytes>, hits: seq<bool>, i: nat, hit: bool)
    requires |hits| == i < |texts|
    ensures var before := Missed(texts[..i], hits);
            Missed(texts[..i + 1], hits + [hit]) == if hit || texts[i] in before then before else before + [texts[i]]
  {
    assert texts[..i + 1][..i] == texts[..i] && (hits + [hit])[..i] == hits;
  }

  lemma IndexedIff(first: map<Digest, nat>, fetch: seq<Bytes>, text: Bytes, env: Env)
    requires Indexed(first, fetch, env) && Injective(env.key)
    ensures Key(text, env) in first <==> text in fetch
    ensures Key(text, env) in first ==> fetch[first[Key(text, env)]] == text
  {
  }

  /** A cache that keeps still spares the second of two equal batches its provider call. */
  method TwiceTheSame(client: Client, texts: seq<Bytes>, env: Env)
    returns (first: Result<seq<Vector>, Error>, second: Result<seq<Vector>, Error>)
    requires Lawful(env) && Still(env) && Sound(client.embeddings, env)
    modifies client
    ensures first.Ok? ==> second == first && |client.calls| <= |old(client.calls)| + 1
  {
    ghost var hits;
    first, hits := client.EmbedBatch(texts, env);
    if first.Ok? {
      ghost var m, t := client.embeddings, client.awaits;
      second, hits := client.EmbedBatch(texts, env);
      StillHits(hits, texts, m, t, env);
      AllHit(texts, hits);
    } else {
      second := first;
    }
  }
}
