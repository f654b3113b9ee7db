/**
  Cached completions and the embedding cache keyed by space and content: what a lookup may
  return is what the very same request once got.
*/
module ResponseCaches {
  import opened Prelude
  import opened CacheKeys

  datatype Digest = Digest(id: int)

  datatype Opts = Opts(model: Option<Bytes>, maxTokens: Option<nat>, temperature: Option<int>, task: nat,
    optimization: nat)

  datatype Request = Complete(prompt: Bytes, opts: Opts) | Json(prompt: Bytes, schema: Bytes, opts: Opts)

  datatype Error = Provider(code: int)

  type Completions = map<Digest, Bytes>

  /** An answer the provider gave to a request. */
  type Answer = (Request, Bytes)

  /**
    How the four plain options render; `provider` answers the `t`-th call; at the `t`-th await the
    cache becomes `drift(t, _)`, and the provider gives `others(t)` to other callers sharing the client.
  */
  datatype Env = Env(
    hash: Bytes -> Digest,
    max: Option<nat> -> Bytes,
    temp: Option<int> -> Bytes,
    task: nat -> Bytes,
    prompt: nat -> Bytes,
    provider: (nat, Request) -> Result<Bytes, Error>,
    drift: (nat, Completions) -> Completions,
    others: nat -> set<Answer>)
  {
    function Part(o: Opts): Bytes
    {
      OptionsPart(o.model, max(o.maxTokens), temp(o.temperature), task(o.task), prompt(o.optimization))
    }
  }

  /** `"complete"` and `"json"`. */
  const COMPLETE: Bytes := [99, 111, 109, 112, 108, 101, 116, 101]
  const JSON: Bytes := [106, 115, 111, 110]

  function Preimage(q: Request, env: Env): Bytes
  {
    match q
    case Complete(prompt, opts) => CompletionPreimage(COMPLETE, env.Part(opts), None, prompt)
    case Json(prompt, schema, opts) => CompletionPreimage(JSON, env.Part(opts), Some(schema), prompt)
  }

  function Key(q: Request, env: Env): Digest { env.hash(Preimage(q, env)) }

  /** A serialised schema has no NUL: JSON escapes it. */
  ghost predicate Sendable(q: Request) { q.Json? ==> NoNul(q.schema) }

  ghost predicate Renders<T(!new)>(show: T -> Bytes)
  {
    && (forall a :: NoNul(show(a)) && BAR !in show(a))
    && (forall a, b :: show(a) == show(b) ==> a == b)
  }

  /** Whatever stands under a request's key answered that very request. */
  ghost predicate Backed(m: Completions, answers: set<Answer>, env: Env)
  {
    forall q :: Sendable(q) && Key(q, env) in m ==> (q, m[Key(q, env)]) in answers
  }

  /**
    The hash does not collide, numbers and names render apart and without bar or NUL, and at an
    await the cache loses entries or gets answers given to others.
  */
  ghost predicate Lawful(env: Env)
  {
    && (forall a, b :: env.hash(a) == env.hash(b) ==> a == b)
    && Renders(env.max) && Renders(env.temp) && Renders(env.task) && Renders(env.prompt)
    && (forall t, m, k :: k in env.drift(t, m) ==>
          || (k in m && env.drift(t, m)[k] == m[k])
          || (exists q :: Sendable(q) && Key(q, env) == k && (q, env.drift(t, m)[k]) in env.others(t)))
  }

  lemma DriftKeepsBacked(t: nat, m: Completions, answers: set<Answer>, env: Env)
    requires Lawful(env) && Backed(m, answers, env)
    ensures Backed(env.drift(t, m), answers + env.others(t), env)
  {
    var after := env.drift(t, m);
    forall q | Sendable(q) && Key(q, env) in after ensures (q, after[Key(q, env)]) in answers + env.others(t) {
      var k := Key(q, env);
      if !(k in m && after[k] == m[k]) {
        var p :| Sendable(p) && Key(p, env) == k && (p, after[k]) in env.others(t);
        KeyInjective(p, q, env);
      }
    }
  }

  lemma InsertKeepsBacked(q: Request, v: Bytes, m: Completions, answers: set<Answer>, env: Env)
    requires Lawful(env) && Backed(m, answers, env) && Sendable(q)
    ensures Backed(m[Key(q, env) := v], answers + {(q, v)}, env)
  {
    forall p | Sendable(p) && Key(p, env) == Key(q, env) ensures p == q { KeyInjective(p, q, env); }
  }

  /** Requests that share a key are the same request. */
  lemma KeyInjective(q: Request, r: Request, env: Env)
    requires Lawful(env) && Sendable(q) && Sendable(r) && Key(q, env) == Key(r, env)
    ensures q == r
  {
    PreimageRoundTrip(q, env);
    PreimageRoundTrip(r, env);
    assert Preimage(q, env) == Preimage(r, env);
    assert COMPLETE[0] != JSON[0];
    PartInjective(q.opts, r.opts, env);
  }

  /** Options that render alike are alike, even when the model's name holds bars or quotes. */
  lemma PartInjective(o: Opts, p: Opts, env: Env)
    requires Lawful(env)
    ensures NoNul(env.Part(o)) && (env.Part(o) == env.Part(p) ==> o == p)
  {
    PartHasNoNul(o.model, env.max(o.maxTokens), env.temp(o.temperature), env.task(o.task), env.prompt(o.optimization));
    if env.Part(o) == env.Part(p) {
      OptionsPartInjective(
        o.model, env.max(o.maxTokens), env.temp(o.temperature), env.task(o.task), env.prompt(o.optimization),
        p.model, env.max(p.maxTokens), env.temp(p.temperature), env.task(p.task), env.prompt(p.optimization));
    }
  }

  lemma PreimageRoundTrip(q: Request, env: Env)
    requires Lawful(env) && Sendable(q)
    ensures DecodeCompletion(Preimage(q, env))
            == Some((if q.Complete? then COMPLETE else JSON, env.Part(q.opts), if q.Complete? then []
              else q.schema, q.prompt))
  {
    var kind := if q.Complete? then COMPLETE else JSON;
    assert NoNul(kind);
    PartInjective(q.opts, q.opts, env);
    CompletionRoundTrip(kind, env.Part(q.opts), if q.Complete? then None else Some(q.schema), q.prompt);
  }

  /** `CachingLlmClient`, its completions. */
  class Client {
    var completions: Completions
    var awaits: nat
    var calls: seq<Request>
    ghost var answered: set<Answer>      // every answer the provider ever gave

    constructor ()
      ensures completions == map[] && calls == [] && answered == {}
    {
      completions, awaits, calls, answered := map[], 0, [], {};
    }

    ghost predicate Valid(env: Env)
      reads this
    {
      Backed(completions, answered, env)
    }

    method Await(env: Env)
      requires Lawful(env) && Valid(env)
      modifies this`completions, this`awaits, this`answered
      ensures Valid(env) && awaits == old(awaits) + 1
      ensures completions == env.drift(old(awaits), old(completions))
              && answered == old(answered) + env.others(old(awaits))
    {
      DriftKeepsBacked(awaits, completions, answered, env);
      completions, answered := env.drift(awaits, completions), answered + env.others(awaits);
      awaits := awaits + 1;
    }

    /** `complete` and `complete_json`. */
    method Ask(q: Request, env: Env) returns (r: Result<Bytes, Error>)
      requires Lawful(env) && Valid(env) && Sendable(q)
      modifies this
      ensures Valid(env)
      ensures r.Ok? ==> (q, r.value) in answered
      ensures var hit := Key(q, env) in env.drift(old(awaits), old(completions));
              if hit then calls == old(calls) && r.Ok? && answered == old(answered) + env.others(old(awaits))
              else
                && calls == old(calls) + [q] && r == env.provider(|old(calls)|, q)
                && answered == old(answered) + env.others(old(awaits)) + env.others(old(awaits) + 1)
                               + if r.Ok? then {(q, r.value)} + env.others(old(awaits) + 2) else {}
      ensures var first := env.drift(old(awaits), old(completions));
              var second := env.drift(old(awaits) + 1, first);
              if Key(q, env) in first then r == Ok(first[Key(q, env)]) && completions == first
              else completions == if r.Err? then second else env.drift(old(awaits) + 2, second[Key(q, env) := r.value])
    {
      Await(env);
      if Key(q, env) in completions { return Ok(completions[Key(q, env)]); }
      r := env.provider(|calls|, q);
      calls := calls + [q];
      Await(env);
      if r.Err? { return; }
      InsertKeepsBacked(q, r.value, completions, answered, env);
      completions, answered := completions[Key(q, env) := r.value], answered + {(q, r.value)};
      Await(env);
    }

    /** `complete`, as the batch uses it: an answer costs at most one call, and an error is that of the call. */
    method CompleteNext(prompt: Bytes, opts: Opts, env: Env) returns (r: Result<Bytes, Error>)
      requires Lawful(env) && Valid(env)
      modifies this
      ensures Valid(env) && old(answered) <= answered
      ensures calls == old(calls) || calls == old(calls) + [Complete(prompt, opts)]
      ensures r.Ok? ==> (Complete(prompt, opts), r.value) in answered && AllAnswered(|old(calls)|, |calls|, env)
      ensures r.Err? ==>
              |calls| == |old(calls)| + 1 && env.provider(|old(calls)|, Complete(prompt, opts)) == Err(r.error)
    {
      r := Ask(Complete(prompt, opts), env);
    }

    /**
      `batch_complete`: one answer per prompt, in order, or the error of the first call that failed,
      which is the last made.
    */
    method BatchComplete(prompts: seq<Bytes>, opts: Opts, env: Env) returns (r: Result<seq<Bytes>, Error>)
      requires Lawful(env) && Valid(env)
      modifies this
      ensures Valid(env) && old(answered) <= answered && old(calls) <= calls
      ensures r.Ok? ==> |r.value| == |prompts| && forall i :: 0 <= i < |prompts| ==>
              (Complete(prompts[i], opts), r.value[i]) in answered
      ensures r.Ok? ==> AllAnswered(|old(calls)|, |calls|, env)
      ensures r.Err? ==>
                && |calls| > |old(calls)| && AllAnswered(|old(calls)|, |calls| - 1, env)
                && env.provider(|calls| - 1, calls[|calls| - 1]) == Err(r.error)
                && exists i :: 0 <= i < |prompts| && calls[|calls| - 1] == Complete(prompts[i], opts)
    {
      var out := [];
      for i := 0 to |prompts|
        invariant Valid(env) && old(answered) <= answered && |out| == i && old(calls) <= calls
        invariant AllAnswered(|old(calls)|, |calls|, env)
        invariant forall j :: 0 <= j < i ==> (Complete(prompts[j], opts), out[j]) in answered
      {
        var one := CompleteNext(prompts[i], opts, env);
        if one.Err? { return Err(one.error); }
        out := out + [one.value];
      }
      r := Ok(out);
    }

    /** The provider answered the calls from the `a`-th up to the `b`-th. */
    ghost predicate AllAnswered(a: nat, b: int, env: Env)
      requires b <= |calls|
      reads this
    {
      forall c :: a <= c < b ==> env.provider(c, calls[c]).Ok?
    }
  }

  // ------------------------------------------------------------------ embeddings by space and content

  datatype Encoded = Encoded(space: Space, vector: seq<int>)

  datatype Entry = Entry(embedding: Encoded, ttl: nat)

  function ContentKey(hash: Bytes -> Digest, space: Space, content: Bytes): Digest
  {
    hash(ContentPreimage(space, content))
  }

  /** `MemoryEmbeddingCache`. */
  class MemoryEmbeddingCache {
    var entries: map<Digest, Entry>
    const defaultTtl: nat
    const hash: Bytes -> Digest
    ghost var puts: set<(Bytes, Encoded)>

    constructor (hash: Bytes -> Digest, defaultTtl: nat)
      ensures this.hash == hash && entries == map[] && this.defaultTtl == defaultTtl
    {
      this.hash, this.defaultTtl := hash, defaultTtl;
      entries, puts := map[], {};
    }

    ghost predicate Collisionless() { forall a, b :: hash(a) == hash(b) ==> a == b }

    /** Whatever stands under the key of a content in a space was put for that content in that space. */
    ghost predicate Valid()
      reads this
    {
      forall space, content :: Representable(space, content) && ContentKey(hash, space, content) in entries ==>
        var e := entries[ContentKey(hash, space, content)].embedding; e.space == space && (content, e) in puts
    }

    /**
      `get`; `kept` is what expiry and capacity have left, and with a collision-free hash the last
      filter never drops anything.
    */
    method Get(space: Space, content: Bytes, kept: set<Digest>) returns (r: Option<Encoded>)
      requires Valid() && Representable(space, content)
      modifies this`entries
      ensures Valid() && entries == map k | k in old(entries) && k in kept :: old(entries)[k]
      ensures r == if ContentKey(hash, space, content) in entries
              then Some(entries[ContentKey(hash, space, content)].embedding) else None
      ensures r.Some? ==> r.value.space == space && (content, r.value) in puts
    {
      entries := map k | k in entries && k in kept :: entries[k];
      var key := ContentKey(hash, space, content);
      r := if key in entries && entries[key].embedding.space == space then Some(entries[key].embedding) else None;
    }

    method Put(content: Bytes, embedding: Encoded, ttl: nat)
      requires Valid() && Collisionless() && Representable(embedding.space, content)
      modifies this
      ensures Valid() && puts == old(puts) + {(content, embedding)}
      ensures entries == old(entries)[ContentKey(hash, embedding.space, content) := Entry(embedding, if ttl == 0
              then defaultTtl else ttl)]
    {
      entries := entries[ContentKey(hash, embedding.space, content) := Entry(embedding, if ttl == 0 then defaultTtl
        else ttl)];
      puts := puts + {(content, embedding)};
      forall space, other | Representable(space, other)
        && ContentKey(hash, space, other) == ContentKey(hash, embedding.space, content)
        ensures space == embedding.space && other == content
      {
        ContentPreimageInjective(space, other, embedding.space, content);
      }
    }

    method Invalidate(space: Space, content: Bytes)
      requires Valid()
      modifies this`entries
      ensures Valid() && entries == old(entries) - {ContentKey(hash, space, content)}
    {
      entries := entries - {ContentKey(hash, space, content)};
    }
  }
}
