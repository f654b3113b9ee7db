/**
  What every interleaving of submits, claims, worker awaits, restores, crashes and failed
  journal writes keeps.  `origin` is the backend before the job was submitted.
*/
module LifecycleSafety {
  import opened Prelude
  import opened LifecycleModel

  const ALL_FLAGS := Flags(true, true, true, true, true)

  /** Checkpoints are set in phase order. */
  predicate Ordered(f: Flags)
  {
    (f.blobs ==> f.content) && (f.content ==> f.graph) && (f.graph ==> f.vector) && (f.vector ==> f.manifest)
  }

  /** Every checkpoint of `f` is one of `g`. */
  predicate Implied(f: Flags, g: Flags)
  {
    && (f.manifest ==> g.manifest) && (f.vector ==> g.vector) && (f.graph ==> g.graph)
    && (f.content ==> g.content) && (f.blobs ==> g.blobs)
  }

  function Hashes(blobs: seq<(BlobRef, Bytes)>): set<Hash>
  {
    set i | 0 <= i < |blobs| :: blobs[i].0.hash
  }

  /** The blobs fetched so far are those of the first references, with their bytes. */
  ghost predicate Fetched(fetched: seq<(BlobRef, Bytes)>, refs: seq<BlobRef>, blobs: map<Hash, Bytes>)
  {
    && |fetched| <= |refs|
    && forall i :: 0 <= i < |fetched| ==>
         fetched[i].0 == refs[i] && refs[i].hash in blobs && fetched[i].1 == blobs[refs[i].hash]
  }

  /** The manifest is a full snapshot of everything `uri` owns in `origin`. */
  ghost predicate Exact(m: Manifest, origin: Backend, uri: Uri)
  {
    && uri in origin.content && m.entry == origin.content[uri]
    && Fetched(m.blobs, CollectBlobs(m.entry.payload), origin.blobs)
    && |m.blobs| == |CollectBlobs(m.entry.payload)|
    && Lists(m.edges, origin.edges, uri)
    && m.vector == LookupPoint(origin.vectors, uri)
  }

  /**
    Outside the manifest nothing differs from `origin`; inside it an item is as it was, or gone.
    Only the entry may have been written again.
  */
  ghost predicate Within(b: Backend, origin: Backend, uri: Uri, m: Manifest)
  {
    && b.content - {uri} == origin.content - {uri}
    && b.vectors - {uri} == origin.vectors - {uri}
    && (uri in b.vectors ==> m.vector == Some(b.vectors[uri]))
    && b.edges <= origin.edges
    && origin.edges - Touching(origin.edges, uri) <= b.edges
    && b.blobs - Hashes(m.blobs) == origin.blobs - Hashes(m.blobs)
    && (forall h :: h in b.blobs && h in Hashes(m.blobs) ==> h in origin.blobs && b.blobs[h] == origin.blobs[h])
  }

  /** What a checkpoint says about the live stores before the job has succeeded. */
  ghost predicate GoneUpTo(f: Flags, b: Backend, uri: Uri, cold: Option<Manifest>)
  {
    && (f.vector ==> uri !in b.vectors)
    && (f.graph ==> Touching(b.edges, uri) == {})
    && (f.content ==> uri !in b.content)
    && (f.blobs ==> cold.Some? && Hashes(cold.value.blobs) * b.blobs.Keys == {})
  }

  /** No restore has written the entry: it is as it was, or gone. */
  ghost predicate Unwritten(b: Backend, origin: Backend, uri: Uri)
  {
    uri in b.content ==> uri in origin.content && b.content[uri] == origin.content[uri]
  }

  ghost predicate DurableOk(d: Job, cold: Option<Manifest>, b: Backend, origin: Backend)
  {
    && Ordered(d.checkpoint)
    && (d.checkpoint.manifest ==> cold.Some?)
    && (!d.checkpoint.manifest ==> b == origin)
    && (cold.None? ==> b == origin)
    && (cold.Some? ==> Exact(cold.value, origin, d.uri) && Within(b, origin, d.uri, cold.value))
    && (d.state.Succeeded? ==> d.checkpoint == ALL_FLAGS)
    && (!d.state.Succeeded? ==>
          GoneUpTo(d.checkpoint, b, d.uri, cold) && d.restore == NO_FLAGS && Unwritten(b, origin, d.uri))
  }

  /** The part of a worker that depends on where it stands. */
  ghost predicate Placed(k: Worker, cold: Option<Manifest>, origin: Backend)
  {
    var cp := k.job.checkpoint;
    match k
    case HasEntry(job, entry, fetched) =>
      !cp.manifest && (cold.None? ==> Snapped(job.uri, entry, fetched, origin))
    case HasEdges(job, entry, fetched, edges) =>
      && !cp.manifest
      && (cold.None? ==> SnappedWhole(job.uri, entry, fetched, edges, origin))
    case HasAll(job, entry, fetched, edges, vector) =>
      && !cp.manifest
      && (cold.None? ==> SnappedWhole(job.uri, entry, fetched, edges, origin))
      && (cold.None? ==> vector == LookupPoint(origin.vectors, job.uri))
    case RemovingEdges(job, todo) =>
      cp.vector && !cp.graph && cold.Some? && (forall e :: e in todo ==> e in cold.value.edges)
    case DeletingBlobs(job, doomed) =>
      cp.content && !cp.blobs && cold.Some? && Hashes(doomed) <= Hashes(cold.value.blobs)
    case Commit(_) => cp.manifest
    case _ => true
  }

  ghost predicate Snapped(uri: Uri, entry: Entry, fetched: seq<(BlobRef, Bytes)>, origin: Backend)
  {
    uri in origin.content && entry == origin.content[uri] && Fetched(fetched, CollectBlobs(entry.payload), origin.blobs)
  }

  ghost predicate SnappedWhole(uri: Uri, entry: Entry, fetched: seq<(BlobRef, Bytes)>, edges: seq<Edge>,
    origin: Backend)
  {
    Snapped(uri, entry, fetched, origin) && |fetched| == |CollectBlobs(entry.payload)|
      && Lists(edges, origin.edges, uri)
  }

  /** How far a worker has erased, as long as no restore can have begun. */
  ghost predicate Erasing(k: Worker, b: Backend, cold: Option<Manifest>)
  {
    && GoneUpTo(k.job.checkpoint, b, k.job.uri, cold)
    && (k.RemovingEdges? ==> Touching(b.edges, k.job.uri) <= Elements(k.todo))
    && (k.DeletingBlobs? ==> cold.Some? && Hashes(cold.value.blobs) * b.blobs.Keys <= Hashes(k.doomed))
  }

  /** A worker about to touch a live store holds a manifest checkpoint that is durable. */
  predicate Destructive(k: Worker)
  {
    k.job.checkpoint.vector || (k.job.checkpoint.manifest && !k.Commit? && !k.Failing?)
  }

  ghost predicate ExecutorOk(k: Worker, d: Job, cold: Option<Manifest>, b: Backend, origin: Backend)
  {
    var j := k.job;
    && !k.Restorer()
    && j.uri == d.uri && j.id == d.id && j.restore == NO_FLAGS && !Terminal(j.state)
    && Ordered(j.checkpoint)
    && (j.revision <= d.revision || (k.Failing? && j.revision == d.revision + 1))
    && (j.revision >= d.revision ==> Implied(d.checkpoint, j.checkpoint) && !Terminal(d.state))
    && (j.checkpoint.manifest ==> cold.Some?)
    && (Destructive(k) ==> d.checkpoint.manifest)
    && Placed(k, cold, origin)
    && (!d.state.Succeeded? ==> Erasing(k, b, cold))
  }

  ghost predicate RestorerOk(k: Worker, d: Job, cold: Option<Manifest>)
  {
    var j := k.job;
    && k.Restorer()
    && d.state.Succeeded? && j.state.Succeeded?
    && j.uri == d.uri && j.id == d.id && j.checkpoint == ALL_FLAGS
    && j.revision <= d.revision
    && (j.revision == d.revision ==> Implied(d.restore, j.restore))
    && cold == Some(k.m)
  }

  ghost predicate WorkerOk(k: Worker, d: Job, cold: Option<Manifest>, b: Backend, origin: Backend)
  {
    if k.Restorer() then RestorerOk(k, d, cold) else ExecutorOk(k, d, cold, b, origin)
  }

  /** Whose journal update would be accepted now. */
  predicate Holds(k: Worker, d: Job) { !k.Restorer() && k.job.revision == d.revision }

  /** A worker whose copy was bumped by an update that never reached the file. */
  predicate Ahead(k: Worker, d: Job) { !k.Restorer() && k.job.revision == d.revision + 1 }

  /** Two executor workers can share the journal's revision only as a failing and a just-claimed one. */
  predicate Apart(x: Worker, y: Worker, d: Job)
  {
    && !(Ahead(x, d) && (Holds(y, d) || Ahead(y, d)))
    && (Holds(x, d) && Holds(y, d) ==> (x.Failing? && y.Claimed?) || (x.Claimed? && y.Failing?))
  }

  ghost predicate AllOk(workers: map<nat, Worker>, d: Job, cold: Option<Manifest>, b: Backend, origin: Backend)
  {
    forall w :: w in workers ==> WorkerOk(workers[w], d, cold, b, origin)
  }

  ghost predicate AllApart(workers: map<nat, Worker>, d: Job)
  {
    forall x, y :: x in workers && y in workers && x != y ==> Apart(workers[x], workers[y], d)
  }

  ghost predicate Inv(s: State, origin: Backend)
  {
    if s.journal.None? then s.cold.None? && s.backend == origin && s.workers == map[]
    else
      var d := s.journal.value;
      && DurableOk(d, s.cold, s.backend, origin)
      && AllOk(s.workers, d, s.cold, s.backend, origin)
      && AllApart(s.workers, d)
  }

  // ------------------------------------------------------------------ backend facts

  lemma PairTouches(edges: set<Edge>, origin: set<Edge>, e: Edge, uri: Uri)
    requires edges <= origin && origin - Touching(origin, uri) <= edges
    requires e.from == uri || e.to == uri
    ensures RemovePair(edges, e) <= edges
    ensures origin - Touching(origin, uri) <= RemovePair(edges, e)
    ensures Touching(RemovePair(edges, e), uri) <= Touching(edges, uri) - {e}
  {
  }

  /** Erasing one more item of the manifest stays within it and undoes no checkpoint. */
  ghost predicate Shrinks(b: Backend, b': Backend, uri: Uri, m: Manifest)
  {
    && (b'.content == b.content || b'.content == b.content - {uri})
    && (b'.vectors == b.vectors || b'.vectors == b.vectors - {uri})
    && (b'.edges == b.edges || exists e :: e in m.edges && b'.edges == RemovePair(b.edges, e))
    && (b'.blobs == b.blobs || exists h :: h in Hashes(m.blobs) && b'.blobs == b.blobs - {h})
  }

  lemma ShrinkWithin(b: Backend, b': Backend, origin: Backend, uri: Uri, m: Manifest)
    requires Exact(m, origin, uri) && Within(b, origin, uri, m) && Shrinks(b, b', uri, m)
    ensures Within(b', origin, uri, m)
    ensures b'.vectors.Keys <= b.vectors.Keys && b'.content.Keys <= b.content.Keys && b'.blobs.Keys <= b.blobs.Keys
    ensures b'.edges <= b.edges && Touching(b'.edges, uri) <= Touching(b.edges, uri)
  {
    if b'.edges != b.edges {
      var e :| e in m.edges && b'.edges == RemovePair(b.edges, e);
      assert e in Elements(m.edges);
      PairTouches(b.edges, origin.edges, e, uri);
    }
    if b'.blobs != b.blobs {
      var h :| h in Hashes(m.blobs) && b'.blobs == b.blobs - {h};
      assert b'.blobs - Hashes(m.blobs) == b.blobs - Hashes(m.blobs);
    }
    assert b'.content - {uri} == b.content - {uri};
    assert b'.vectors - {uri} == b.vectors - {uri};
  }

  /** Workers that do not move keep their invariant while the stores shrink. */
  lemma ShrinkOther(k: Worker, d: Job, cold: Option<Manifest>, b: Backend, b': Backend, origin: Backend)
    requires WorkerOk(k, d, cold, b, origin) && DurableOk(d, cold, b, origin)
    requires cold.Some? && Shrinks(b, b', d.uri, cold.value)
    ensures WorkerOk(k, d, cold, b', origin)
  {
  }

  lemma ShrinkDurable(d: Job, cold: Option<Manifest>, b: Backend, b': Backend, origin: Backend)
    requires DurableOk(d, cold, b, origin) && d.checkpoint.manifest
    requires cold.Some? && Shrinks(b, b', d.uri, cold.value)
    ensures DurableOk(d, cold, b', origin)
  {
    ShrinkWithin(b, b', origin, d.uri, cold.value);
  }

  /** Moving on without touching the journal keeps workers apart, for a worker that is mid-attempt. */
  lemma MoveApart(workers: map<nat, Worker>, d: Job, w: nat, k: Worker)
    requires AllApart(workers, d) && w in workers
    requires k.Restorer() == workers[w].Restorer() && k.job.revision == workers[w].job.revision
    requires k.Restorer() || (!Ahead(k, d) && !workers[w].Failing? && !workers[w].Claimed?)
    ensures AllApart(workers[w := k], d)
  {
  }

  lemma DropKeeps(s: State, w: nat, origin: Backend)
    requires Inv(s, origin)
    ensures Inv(Drop(s, w), origin)
  {
  }

  /** The acting worker moves within its attempt; the other workers and the stores are kept. */
  lemma MoveInv(s: State, w: nat, k: Worker, origin: Backend)
    requires Inv(s, origin) && w in s.workers && s.journal.Some?
    requires k.Restorer() == s.workers[w].Restorer() && k.job.revision == s.workers[w].job.revision
    requires k.Restorer() || (!s.workers[w].Failing? && !s.workers[w].Claimed?)
    requires WorkerOk(k, s.journal.value, s.cold, s.backend, origin)
    ensures Inv(Replace(s, w, k), origin)
  {
  }

  /** The same when the step also erased an item of the manifest. */
  lemma ShrinkInv(s: State, b': Backend, w: nat, k: Worker, origin: Backend)
    requires Inv(s, origin) && w in s.workers && s.journal.Some? && s.cold.Some?
    requires !s.workers[w].Restorer() && !s.workers[w].Failing? && !s.workers[w].Claimed? && !k.Restorer()
    requires s.journal.value.checkpoint.manifest
    requires Shrinks(s.backend, b', s.journal.value.uri, s.cold.value)
    requires k.job.revision == s.workers[w].job.revision
    requires WorkerOk(k, s.journal.value, s.cold, b', origin)
    ensures Inv(Replace(s.(backend := b'), w, k), origin)
  {
    var d := s.journal.value;
    ShrinkDurable(d, s.cold, s.backend, b', origin);
    MoveApart(s.workers, d, w, k);
    forall x | x in s.workers && x != w ensures WorkerOk(s.workers[x], d, s.cold, b', origin) {
      ShrinkOther(s.workers[x], d, s.cold, s.backend, b', origin);
    }
  }

  // ------------------------------------------------------------------ one lemma per kind of step

  /** An accepted update outdates every other worker's copy. */
  lemma StoreInv(s: State, w: nat, d': Job, origin: Backend)
    requires Inv(s, origin) && w in s.workers && s.journal.Some? && Holds(s.workers[w], s.journal.value)
    requires var j := s.workers[w].job;
             d'.uri == j.uri && d'.id == j.id && d'.revision == j.revision + 1 && d'.restore == j.restore
               && d'.checkpoint == j.checkpoint
    requires d'.state.Succeeded? ==> d'.checkpoint == ALL_FLAGS
    requires !d'.checkpoint.manifest ==> s.backend == origin
    ensures Inv(Drop(s.(journal := Some(d')), w), origin)
    ensures forall x :: x in s.workers && x != w ==> s.workers[x].job.revision < d'.revision
  {
    var d := s.journal.value;
    forall x | x in s.workers && x != w
      ensures s.workers[x].job.revision < d'.revision && WorkerOk(s.workers[x], d', s.cold, s.backend, origin)
    {
      assert WorkerOk(s.workers[x], d, s.cold, s.backend, origin);
      assert Apart(s.workers[x], s.workers[w], d);
    }
  }

  /** The worker that stored its update goes on at the journal's new revision. */
  lemma StoreOnInv(s: State, w: nat, d': Job, k: Worker, origin: Backend)
    requires Inv(s, origin) && w in s.workers && s.journal.Some? && Holds(s.workers[w], s.journal.value)
    requires var j := s.workers[w].job;
             d'.uri == j.uri && d'.id == j.id && d'.revision == j.revision + 1 && d'.restore == j.restore
               && d'.checkpoint == j.checkpoint
    requires !Terminal(d'.state) && (!d'.checkpoint.manifest ==> s.backend == origin)
    requires k.job == d' && (k.Phase? || k.Failing?)
    ensures Inv(Replace(s.(journal := Some(d')), w, k), origin)
  {
    StoreInv(s, w, d', origin);
    LoneHolder(s.workers, d', w, k);
    StoredOk(s, w, d', k, origin);
  }

  /** A worker at the record's revision with all others behind it. */
  lemma LoneHolder(workers: map<nat, Worker>, d: Job, w: nat, k: Worker)
    requires k.job == d && forall x :: x in workers && x != w ==> workers[x].job.revision < d.revision
    ensures AllApart(workers[w := k], d)
  {
  }

  lemma StoredOk(s: State, w: nat, d': Job, k: Worker, origin: Backend)
    requires Inv(s, origin) && w in s.workers && s.journal.Some? && Holds(s.workers[w], s.journal.value)
    requires d'.uri == s.workers[w].job.uri && d'.id == s.workers[w].job.id
             && d'.revision == s.workers[w].job.revision + 1
    requires d'.restore == s.workers[w].job.restore && d'.checkpoint == s.workers[w].job.checkpoint
             && !Terminal(d'.state)
    requires k.job == d' && (k.Phase? || k.Failing?)
    ensures WorkerOk(k, d', s.cold, s.backend, origin)
  {
    assert WorkerOk(s.workers[w], s.journal.value, s.cold, s.backend, origin);
  }

  /** Without a durable manifest checkpoint a holder has changed nothing. */
  lemma HolderUntouched(s: State, w: nat, origin: Backend)
    requires Inv(s, origin) && w in s.workers && s.journal.Some? && Holds(s.workers[w], s.journal.value)
    ensures !s.workers[w].job.checkpoint.manifest ==> s.backend == origin
  {
  }

  lemma JournalKeeps(s: State, w: nat, fate: Fate, now: int, origin: Backend)
    requires Inv(s, origin) && w in s.workers
    requires s.workers[w].Claimed? || s.workers[w].Commit? || s.workers[w].Failing?
    ensures Inv(JournalStep(s, w, s.workers[w], fate, now), origin)
  {
    var k := s.workers[w];
    if k.Commit? { CheckpointKeeps(s, w, fate, origin); }
    else {
      EdgeOfAttemptKeeps(s, w, if k.Claimed? then Running1(k.job) else FailedJob(k.job, now), fate, origin);
    }
  }

  /** The first and the last update of an attempt: a worker whose update fails is gone. */
  lemma EdgeOfAttemptKeeps(s: State, w: nat, next: Job, fate: Fate, origin: Backend)
    requires Inv(s, origin) && w in s.workers && s.journal.Some? && !s.workers[w].Restorer()
    requires var j := s.workers[w].job;
             next == j.(state := next.state, attempts := next.attempts, nextAttemptAt := next.nextAttemptAt,
                        leaseOwner := next.leaseOwner, leaseUntil := next.leaseUntil) && !next.state.Succeeded?
    ensures var saved := Save(s.journal, next, fate);
            && Inv(Drop(s.(journal := saved.journal), w), origin)
            && (saved.ok && !Terminal(next.state) ==>
              Inv(Replace(s.(journal := saved.journal), w, Phase(saved.job)), origin))
  {
    var saved := Save(s.journal, next, fate);
    if saved.journal == s.journal {
      DropKeeps(s, w, origin);
      assert s.(journal := saved.journal) == s;
    } else {
      HolderUntouched(s, w, origin);
      StoreInv(s, w, saved.job, origin);
      if !Terminal(next.state) { StoreOnInv(s, w, saved.job, Phase(saved.job), origin); }
    }
  }

  lemma CheckpointKeeps(s: State, w: nat, fate: Fate, origin: Backend)
    requires Inv(s, origin) && w in s.workers && s.workers[w].Commit? && s.journal.Some?
    ensures Inv(JournalStep(s, w, s.workers[w], fate, 0), origin)
  {
    var saved := Save(s.journal, s.workers[w].job, fate);
    if saved.journal == s.journal {
      CheckpointLost(s, w, fate, origin);
    } else {
      HolderUntouched(s, w, origin);
      StoreOnInv(s, w, saved.job, if saved.ok then Phase(saved.job) else Failing(saved.job), origin);
    }
  }

  lemma CheckpointLost(s: State, w: nat, fate: Fate, origin: Backend)
    requires Inv(s, origin) && w in s.workers && s.workers[w].Commit? && s.journal.Some?
    requires Save(s.journal, s.workers[w].job, fate).journal == s.journal
    ensures Inv(JournalStep(s, w, s.workers[w], fate, 0), origin)
  {
    var j := s.workers[w].job;
    assert WorkerOk(s.workers[w], s.journal.value, s.cold, s.backend, origin);
    var saved := Save(s.journal, j, fate);
    assert s.(journal := saved.journal) == s;
    if saved.job == j { MoveInv(s, w, Failing(j), origin); } else { AheadInv(s, w, saved.job, origin); }
  }

  /** A checkpoint update that bumped the copy and then could not write the file. */
  lemma AheadInv(s: State, w: nat, bumped: Job, origin: Backend)
    requires Inv(s, origin) && w in s.workers && s.journal.Some? && s.workers[w].Commit?
    requires Holds(s.workers[w], s.journal.value)
    requires bumped == s.workers[w].job.(revision := s.workers[w].job.revision + 1)
    ensures Inv(Replace(s, w, Failing(bumped)), origin)
  {
  }

  lemma ClaimKeeps(s: State, w: nat, now: int, origin: Backend)
    requires Inv(s, origin) && s.journal.Some? && w !in s.workers && Claimable(s.journal.value, now)
    ensures var j := ClaimedJob(s.journal.value, w, now); Inv(Replace(s.(journal := Some(j)), w, Claimed(j)), origin)
  {
  }

  lemma FetchOne(fetched: seq<(BlobRef, Bytes)>, refs: seq<BlobRef>, blobs: map<Hash, Bytes>)
    requires Fetched(fetched, refs, blobs) && |fetched| < |refs| && refs[|fetched|].hash in blobs
    ensures Fetched(fetched + [(refs[|fetched|], blobs[refs[|fetched|].hash])], refs, blobs)
  {
  }

  /** A worker may replace what it has read by more, or give up. */
  lemma ReadInv(s: State, w: nat, k: Worker, origin: Backend)
    requires Inv(s, origin) && w in s.workers && (s.workers[w].HasEntry? || s.workers[w].HasEdges?)
    requires k.job == s.workers[w].job && Placed(k, s.cold, origin)
    requires k.HasEntry? || k.HasEdges? || k.HasAll? || k.Failing?
    ensures Inv(Replace(s, w, k), origin)
  {
    assert WorkerOk(s.workers[w], s.journal.value, s.cold, s.backend, origin);
    MoveInv(s, w, k, origin);
  }

  lemma ReadEntryKeeps(s: State, w: nat, fate: Fate, now: int, env: Env, origin: Backend)
    requires Inv(s, origin) && Lawful(env) && w in s.workers && s.workers[w].HasEntry?
    ensures Inv(SnapshotStep(s, w, s.workers[w], fate, now, env), origin)
  {
    var k := s.workers[w];
    assert WorkerOk(k, s.journal.value, s.cold, s.backend, origin);
    var refs := CollectBlobs(k.entry.payload);
    ReadInv(s, w, Failing(k.job), origin);
    if fate.Fine? && |k.fetched| < |refs| {
      var r := refs[|k.fetched|];
      if r.hash in s.backend.blobs {
        if s.cold.None? { FetchOne(k.fetched, refs, s.backend.blobs); }
        ReadInv(s, w, HasEntry(k.job, k.entry, k.fetched + [(r, s.backend.blobs[r.hash])]), origin);
      }
    } else if fate.Fine? {
      var listing := env.list(Touching(s.backend.edges, k.job.uri));
      ReadInv(s, w, HasEdges(k.job, k.entry, k.fetched, listing), origin);
    }
  }

  lemma ReadVectorKeeps(s: State, w: nat, fate: Fate, now: int, env: Env, origin: Backend)
    requires Inv(s, origin) && w in s.workers && s.workers[w].HasEdges?
    ensures Inv(SnapshotStep(s, w, s.workers[w], fate, now, env), origin)
  {
    var k := s.workers[w];
    assert WorkerOk(k, s.journal.value, s.cold, s.backend, origin);
    ReadInv(s, w, Failing(k.job), origin);
    if fate.Fine? {
      ReadInv(s, w, HasAll(k.job, k.entry, k.fetched, k.edges, LookupPoint(s.backend.vectors, k.job.uri)), origin);
    }
  }

  /** The manifest stored first is exact: what its worker has read is the origin, for until then nothing was erased. */
  lemma FirstManifestIsExact(s: State, w: nat, fate: Fate, now: int, env: Env, origin: Backend)
    requires Inv(s, origin) && w in s.workers && s.workers[w].HasAll? && s.cold.None?
    ensures var t := SnapshotStep(s, w, s.workers[w], fate, now, env);
            t.cold.Some? ==>
              && s.journal.Some? && t.journal == s.journal && s.backend == origin
              && Exact(t.cold.value, origin, s.journal.value.uri) && t.cold.value.createdAt == now
  {
    assert WorkerOk(s.workers[w], s.journal.value, s.cold, s.backend, origin);
  }

  lemma PutKeeps(s: State, w: nat, fate: Fate, now: int, env: Env, origin: Backend)
    requires Inv(s, origin) && w in s.workers && s.workers[w].HasAll?
    ensures Inv(SnapshotStep(s, w, s.workers[w], fate, now, env), origin)
  {
    var k := s.workers[w];
    var m := Manifest(k.job.id, k.entry, k.fetched, k.edges, k.vector, now);
    assert WorkerOk(k, s.journal.value, s.cold, s.backend, origin);
    var put := PutManifest(s.cold, m, fate);
    var t := s.(cold := put.cold);
    if put.cold != s.cold {
      FirstManifestIsExact(s, w, fate, now, env, origin);
      FirstManifest(s, m, origin);
    }
    assert WorkerOk(k, t.journal.value, t.cold, t.backend, origin);
    MoveInv(t, w, if put.ok then Commit(k.job.(checkpoint := k.job.checkpoint.(manifest := true)))
      else Failing(k.job), origin);
  }

  lemma FirstManifest(s: State, m: Manifest, origin: Backend)
    requires Inv(s, origin) && s.journal.Some? && s.cold.None? && Exact(m, origin, s.journal.value.uri)
    ensures Inv(s.(cold := Some(m)), origin)
  {
  }

  lemma PhaseKeeps(s: State, w: nat, fate: Fate, env: Env, origin: Backend)
    requires Inv(s, origin) && w in s.workers && s.workers[w].Phase?
    ensures Inv(PhaseStep(s, w, s.workers[w].job, fate, env), origin)
  {
    var job := s.workers[w].job;
    var cp := job.checkpoint;
    PhaseFacts(s, w, origin);
    if !cp.manifest {
      if fate.Fine? && job.uri in s.backend.content {
        MoveInv(s, w, HasEntry(job, s.backend.content[job.uri], []), origin);
      }
    } else if !cp.vector {
      DeleteKeeps(s, w, fate, s.backend.(vectors := s.backend.vectors - {job.uri}), cp.(vector := true), origin);
    } else if !cp.graph {
      StartRemoval(s, w, EdgesLeft(job, s.cold.value.edges), origin);
    } else if !cp.content {
      if !env.strict || job.uri in s.backend.content {
        DeleteKeeps(s, w, fate, s.backend.(content := s.backend.content - {job.uri}), cp.(content := true), origin);
      }
    } else if !cp.blobs {
      StartRemoval(s, w, BlobsLeft(job, s.cold.value.blobs), origin);
    } else {
      FinishKeeps(s, w, fate, origin);
    }
  }

  /** What a worker between phases may rely on. */
  lemma PhaseFacts(s: State, w: nat, origin: Backend)
    requires Inv(s, origin) && w in s.workers && s.workers[w].Phase?
    ensures s.journal.Some? && Ordered(s.workers[w].job.checkpoint)
    ensures s.workers[w].job.checkpoint.manifest ==> s.cold.Some?
    ensures Inv(Replace(s, w, Failing(s.workers[w].job)), origin)
    ensures !s.workers[w].job.checkpoint.manifest && s.workers[w].job.uri in s.backend.content ==>
              WorkerOk(HasEntry(s.workers[w].job, s.backend.content[s.workers[w].job.uri], []), s.journal.value,
                s.cold, s.backend, origin)
  {
    assert WorkerOk(s.workers[w], s.journal.value, s.cold, s.backend, origin);
    MoveInv(s, w, Failing(s.workers[w].job), origin);
  }

  /** Deleting the vector or the content: one call, then its checkpoint. */
  lemma DeleteKeeps(s: State, w: nat, fate: Fate, b: Backend, cp: Flags, origin: Backend)
    requires Inv(s, origin) && w in s.workers && s.workers[w].Phase? && s.workers[w].job.checkpoint.manifest
    requires var job := s.workers[w].job;
             || (!job.checkpoint.vector && b == s.backend.(vectors := s.backend.vectors - {job.uri})
               && cp == job.checkpoint.(vector := true))
             || (job.checkpoint.graph && !job.checkpoint.content
               && b == s.backend.(content := s.backend.content - {job.uri}) && cp == job.checkpoint.(content := true))
    ensures var job := s.workers[w].job;
            Inv(Replace(if Applies(fate) then s.(backend := b) else s, w,
                        if fate.Fine? then Commit(job.(checkpoint := cp)) else Failing(job)), origin)
  {
    assert WorkerOk(s.workers[w], s.journal.value, s.cold, s.backend, origin);
    DeletedOk(s, w, b, cp, origin);
    ItemGone(s, b, w, Commit(s.workers[w].job.(checkpoint := cp)), origin);
  }

  lemma DeletedOk(s: State, w: nat, b: Backend, cp: Flags, origin: Backend)
    requires Inv(s, origin) && w in s.workers && s.workers[w].Phase? && s.workers[w].job.checkpoint.manifest
    requires s.journal.Some? && s.cold.Some? && WorkerOk(s.workers[w], s.journal.value, s.cold, s.backend, origin)
    requires var job := s.workers[w].job;
             || (!job.checkpoint.vector && b == s.backend.(vectors := s.backend.vectors - {job.uri})
               && cp == job.checkpoint.(vector := true))
             || (job.checkpoint.graph && !job.checkpoint.content
               && b == s.backend.(content := s.backend.content - {job.uri}) && cp == job.checkpoint.(content := true))
    ensures var job := s.workers[w].job;
            && Shrinks(s.backend, b, s.journal.value.uri, s.cold.value)
            && WorkerOk(Commit(job.(checkpoint := cp)), s.journal.value, s.cold, b, origin)
            && WorkerOk(Failing(job), s.journal.value, s.cold, b, origin)
  {
    ShrinkOther(s.workers[w], s.journal.value, s.cold, s.backend, b, origin);
  }

  /** Reading the manifest back before erasing its edges or blobs. */
  lemma StartRemoval(s: State, w: nat, k: Worker, origin: Backend)
    requires Inv(s, origin) && w in s.workers && s.workers[w].Phase? && s.workers[w].job.checkpoint.manifest
    requires var job := s.workers[w].job;
             && s.cold.Some?
             && ((job.checkpoint.vector && !job.checkpoint.graph && k == EdgesLeft(job, s.cold.value.edges))
                 || (job.checkpoint.content && !job.checkpoint.blobs && k == BlobsLeft(job, s.cold.value.blobs)))
    ensures Inv(Replace(s, w, k), origin)
  {
    var d := s.journal.value;
    var m := s.cold.value;
    assert WorkerOk(s.workers[w], d, s.cold, s.backend, origin);
    assert Touching(s.backend.edges, d.uri) <= Touching(origin.edges, d.uri) == Elements(m.edges);
    if k.Commit? && m.edges == [] && !s.workers[w].job.checkpoint.graph { assert Elements(m.edges) == {}; }
    if k.Commit? && m.blobs == [] { assert Hashes(m.blobs) == {}; }
    MoveInv(s, w, k, origin);
  }

  lemma FinishKeeps(s: State, w: nat, fate: Fate, origin: Backend)
    requires Inv(s, origin) && w in s.workers && s.workers[w].Phase? && s.workers[w].job.checkpoint.blobs
    ensures Inv(Drop(s.(journal := Save(s.journal, FinishedJob(s.workers[w].job), fate).journal), w), origin)
  {
  }

  /** One edge fewer to remove. */
  lemma EdgeGone(k: Worker, d: Job, cold: Option<Manifest>, b: Backend, b': Backend, origin: Backend)
    requires k.RemovingEdges? && k.todo != [] && WorkerOk(k, d, cold, b, origin) && DurableOk(d, cold, b, origin)
    requires b' == b.(edges := RemovePair(b.edges, k.todo[0]))
    ensures Shrinks(b, b', d.uri, cold.value)
    ensures WorkerOk(EdgesLeft(k.job, k.todo[1..]), d, cold, b', origin)
    ensures WorkerOk(Failing(k.job), d, cold, b', origin)
  {
    var e, rest := k.todo[0], k.todo[1..];
    var m := cold.value;
    assert e in Elements(m.edges);
    assert Shrinks(b, b', d.uri, m);
    ShrinkOther(k, d, cold, b, b', origin);
    PairTouches(b.edges, origin.edges, e, d.uri);
    assert Elements(k.todo) - {e} <= Elements(rest);
    if rest == [] { assert Elements(rest) == {}; }
  }

  lemma EdgesDone(s: State, w: nat, origin: Backend)
    requires Inv(s, origin) && w in s.workers && s.workers[w].RemovingEdges? && s.workers[w].todo == []
    ensures Inv(Replace(s, w, EdgesLeft(s.workers[w].job, [])), origin)
  {
    assert WorkerOk(s.workers[w], s.journal.value, s.cold, s.backend, origin);
    assert Elements(s.workers[w].todo) == {};
    MoveInv(s, w, EdgesLeft(s.workers[w].job, []), origin);
  }

  lemma EdgeRemovalKeeps(s: State, w: nat, fate: Fate, origin: Backend)
    requires Inv(s, origin) && w in s.workers && s.workers[w].RemovingEdges?
    ensures Inv(RemovalStep(s, w, s.workers[w], fate), origin)
  {
    var k := s.workers[w];
    var job, todo := k.job, k.todo;
    if todo == [] {
      EdgesDone(s, w, origin);
    } else {
      var d := s.journal.value;
      assert WorkerOk(k, d, s.cold, s.backend, origin);
      var b := s.backend.(edges := RemovePair(s.backend.edges, todo[0]));
      EdgeGone(k, d, s.cold, s.backend, b, origin);
      ItemGone(s, b, w, EdgesLeft(job, todo[1..]), origin);
    }
  }

  /** After one more item of the manifest is erased, or the call has failed, the worker goes on or gives up. */
  lemma ItemGone(s: State, b: Backend, w: nat, next: Worker, origin: Backend)
    requires Inv(s, origin) && w in s.workers && s.journal.Some? && s.cold.Some? && s.journal.value.checkpoint.manifest
    requires s.workers[w].RemovingEdges? || s.workers[w].DeletingBlobs? || s.workers[w].Phase?
    requires Shrinks(s.backend, b, s.journal.value.uri, s.cold.value)
    requires !next.Restorer() && next.job.revision == s.workers[w].job.revision
    requires WorkerOk(next, s.journal.value, s.cold, b, origin)
    requires WorkerOk(Failing(s.workers[w].job), s.journal.value, s.cold, b, origin)
    requires WorkerOk(Failing(s.workers[w].job), s.journal.value, s.cold, s.backend, origin)
    ensures Inv(Replace(s.(backend := b), w, next), origin)
    ensures Inv(Replace(s.(backend := b), w, Failing(s.workers[w].job)), origin)
    ensures Inv(Replace(s, w, Failing(s.workers[w].job)), origin)
  {
    MoveInv(s, w, Failing(s.workers[w].job), origin);
    ShrinkInv(s, b, w, next, origin);
    ShrinkInv(s, b, w, Failing(s.workers[w].job), origin);
  }

  /** One blob fewer to delete. */
  lemma BlobGone(k: Worker, d: Job, cold: Option<Manifest>, b: Backend, b': Backend, origin: Backend)
    requires k.DeletingBlobs? && k.doomed != [] && WorkerOk(k, d, cold, b, origin) && DurableOk(d, cold, b, origin)
    requires b' == b.(blobs := b.blobs - {k.doomed[0].0.hash})
    ensures Shrinks(b, b', d.uri, cold.value)
    ensures WorkerOk(BlobsLeft(k.job, k.doomed[1..]), d, cold, b', origin)
    ensures WorkerOk(Failing(k.job), d, cold, b', origin)
  {
    HashesTail(k.doomed);
    assert Shrinks(b, b', d.uri, cold.value);
    ShrinkOther(k, d, cold, b, b', origin);
    if k.doomed[1..] == [] { assert Hashes(k.doomed[1..]) == {}; }
  }

  lemma BlobsDone(s: State, w: nat, origin: Backend)
    requires Inv(s, origin) && w in s.workers && s.workers[w].DeletingBlobs? && s.workers[w].doomed == []
    ensures Inv(Replace(s, w, BlobsLeft(s.workers[w].job, [])), origin)
  {
    assert WorkerOk(s.workers[w], s.journal.value, s.cold, s.backend, origin);
    assert Hashes(s.workers[w].doomed) == {};
    MoveInv(s, w, BlobsLeft(s.workers[w].job, []), origin);
  }

  lemma BlobRemovalKeeps(s: State, w: nat, fate: Fate, origin: Backend)
    requires Inv(s, origin) && w in s.workers && s.workers[w].DeletingBlobs?
    ensures Inv(RemovalStep(s, w, s.workers[w], fate), origin)
  {
    var k := s.workers[w];
    var job, doomed := k.job, k.doomed;
    if doomed == [] {
      BlobsDone(s, w, origin);
    } else {
      var d := s.journal.value;
      assert WorkerOk(k, d, s.cold, s.backend, origin);
      var b := s.backend.(blobs := s.backend.blobs - {doomed[0].0.hash});
      BlobGone(k, d, s.cold, s.backend, b, origin);
      ItemGone(s, b, w, BlobsLeft(job, doomed[1..]), origin);
    }
  }

  lemma HashesTail(blobs: seq<(BlobRef, Bytes)>)
    requires blobs != []
    ensures Hashes(blobs) == {blobs[0].0.hash} + Hashes(blobs[1..])
  {
  }

  // ------------------------------------------------------------------ restore

  /** Writing back what the manifest holds, the entry as the store stamps it. */
  ghost predicate Regrows(b: Backend, b': Backend, origin: Backend, uri: Uri, m: Manifest)
  {
    && (b'.content == b.content || (uri in b'.content && b'.content == b.content[uri := b'.content[uri]]))
    && (b'.vectors == b.vectors || (m.vector.Some? && b'.vectors == b.vectors[uri := m.vector.value]))
    && (b'.edges == b.edges || exists e :: e in m.edges && b'.edges == b.edges + {e})
    && (b'.blobs == b.blobs || exists h ::
      h in Hashes(m.blobs) && h in origin.blobs && b'.blobs == b.blobs[h := origin.blobs[h]])
  }

  lemma RegrowWithin(b: Backend, b': Backend, origin: Backend, uri: Uri, m: Manifest)
    requires Exact(m, origin, uri) && Within(b, origin, uri, m) && Regrows(b, b', origin, uri, m)
    ensures Within(b', origin, uri, m)
  {
    if b'.edges != b.edges {
      var e :| e in m.edges && b'.edges == b.edges + {e};
      assert e in Elements(m.edges);
    }
    if b'.blobs != b.blobs {
      var h :| h in Hashes(m.blobs) && h in origin.blobs && b'.blobs == b.blobs[h := origin.blobs[h]];
      assert b'.blobs - Hashes(m.blobs) == b.blobs - Hashes(m.blobs);
    }
    assert b'.content - {uri} == b.content - {uri};
    assert b'.vectors - {uri} == b.vectors - {uri};
  }

  /** A restore step that only changes the stores and the restorer's place. */
  lemma RegrowInv(s: State, b': Backend, w: nat, k: Worker, origin: Backend)
    requires Inv(s, origin) && w in s.workers && s.workers[w].Restorer() && s.journal.Some?
    requires RestorerOk(k, s.journal.value, s.cold) && k.job.revision == s.workers[w].job.revision
    requires s.cold.Some? && Regrows(s.backend, b', origin, s.journal.value.uri, s.cold.value)
    ensures Inv(Replace(s.(backend := b'), w, k), origin) && Inv(Drop(s.(backend := b'), w), origin)
  {
    var d := s.journal.value;
    assert WorkerOk(s.workers[w], d, s.cold, s.backend, origin);
    RegrowWithin(s.backend, b', origin, d.uri, s.cold.value);
    forall x | x in s.workers ensures WorkerOk(s.workers[x], d, s.cold, b', origin) {
      assert WorkerOk(s.workers[x], d, s.cold, s.backend, origin);
    }
    MoveApart(s.workers, d, w, k);
    DropKeeps(s.(backend := b'), w, origin);
  }

  lemma ManifestBlob(m: Manifest, origin: Backend, uri: Uri, i: nat, env: Env)
    requires Exact(m, origin, uri) && i < |m.blobs| && WellFormed(origin, env)
    ensures m.blobs[i].0.hash in Hashes(m.blobs) && m.blobs[i].0.hash in origin.blobs
    ensures m.blobs[i].1 == origin.blobs[m.blobs[i].0.hash] && env.digest(m.blobs[i].1) == m.blobs[i].0.hash
  {
  }

  lemma RestoreBlobsKeeps(s: State, w: nat, fate: Fate, now: int, env: Env, origin: Backend)
    requires Inv(s, origin) && WellFormed(origin, env) && w in s.workers && s.workers[w].RestoreBlobs?
    ensures Inv(RestoreStep(s, w, s.workers[w], fate, now, env), origin)
  {
    var k := s.workers[w];
    var job, m, done := k.job, k.m, k.done;
    assert WorkerOk(k, s.journal.value, s.cold, s.backend, origin);
    assert s.(backend := s.backend) == s;
    if done < |m.blobs| {
      ManifestBlob(m, origin, job.uri, done, env);
      var h := m.blobs[done].0.hash;
      var b := if Applies(fate) then s.backend.(blobs := s.backend.blobs[h := m.blobs[done].1]) else s.backend;
      RegrowInv(s, b, w, BlobsRestored(job, m, done + 1), origin);
    } else {
      RegrowInv(s, s.backend, w, BlobsRestored(job, m, done), origin);
    }
  }

  lemma RestoreEdgesKeeps(s: State, w: nat, fate: Fate, now: int, env: Env, origin: Backend)
    requires Inv(s, origin) && w in s.workers && s.workers[w].RestoreEdges?
    ensures Inv(RestoreStep(s, w, s.workers[w], fate, now, env), origin)
  {
    var k := s.workers[w];
    var job, m, done := k.job, k.m, k.done;
    assert WorkerOk(k, s.journal.value, s.cold, s.backend, origin);
    assert s.(backend := s.backend) == s;
    if done < |m.edges| {
      var b := if Applies(fate) then s.backend.(edges := s.backend.edges + {m.edges[done]}) else s.backend;
      RegrowInv(s, b, w, EdgesRestored(job, m, done + 1), origin);
    } else {
      RegrowInv(s, s.backend, w, EdgesRestored(job, m, done), origin);
    }
  }

  lemma RestoreWriteKeeps(s: State, w: nat, fate: Fate, now: int, env: Env, origin: Backend)
    requires Inv(s, origin) && WellFormed(origin, env) && w in s.workers && s.workers[w].RestoreWrite?
    ensures Inv(RestoreStep(s, w, s.workers[w], fate, now, env), origin)
  {
  }

  lemma RestorePhaseKeeps(s: State, w: nat, fate: Fate, now: int, env: Env, origin: Backend)
    requires Inv(s, origin) && WellFormed(origin, env) && w in s.workers && s.workers[w].RestorePhase?
    ensures Inv(RestoreStep(s, w, s.workers[w], fate, now, env), origin)
  {
    var k := s.workers[w];
    var d := s.journal.value;
    assert WorkerOk(k, d, s.cold, s.backend, origin);
    var job, m, r := k.job, k.m, k.job.restore;
    DropKeeps(s, w, origin);
    assert s.(backend := s.backend) == s;
    if !r.blobs {
      RegrowInv(s, s.backend, w, BlobsRestored(job, m, 0), origin);
    } else if !r.content {
      RegrowInv(s, s.backend, w, RestoreWrite(job, m), origin);
      RegrowInv(s, s.backend, w, RestoreCommit(job.(restore := r.(content := true)), m), origin);
    } else if !r.graph {
      RegrowInv(s, s.backend, w, EdgesRestored(job, m, 0), origin);
    } else if !r.vector {
      var next := RestoreCommit(job.(restore := r.(vector := true)), m);
      RegrowInv(s, s.backend, w, next, origin);
      if m.vector.Some? {
        assert m.vector.value.uri == d.uri;
        RegrowInv(s, s.backend.(vectors := s.backend.vectors[d.uri := m.vector.value]), w, next, origin);
      }
    }
  }

  /** A restore checkpoint outdates other restorers; executors are outdated already. */
  lemma RestoreCommitKeeps(s: State, w: nat, fate: Fate, origin: Backend)
    requires Inv(s, origin) && w in s.workers && s.workers[w].RestoreCommit?
    ensures var saved := Save(s.journal, s.workers[w].job, fate);
            var t := s.(journal := saved.journal);
            Inv(if saved.ok then Replace(t, w, RestorePhase(saved.job, s.workers[w].m)) else Drop(t, w), origin)
  {
  }

  // ------------------------------------------------------------------ all steps, all runs

  lemma SubmitKeeps(s: State, id: nat, uri: Uri, now: int, origin: Backend)
    requires Inv(s, origin)
    ensures Inv(s.(journal := Upsert(s.journal, NewJob(id, uri, now))), origin)
  {
  }

  lemma BeginRestoreKeeps(s: State, w: nat, origin: Backend)
    requires Inv(s, origin) && w !in s.workers && s.cold.Some? && s.journal.Some? && s.journal.value.state.Succeeded?
    ensures Inv(Replace(s, w, RestorePhase(s.journal.value, s.cold.value)), origin)
  {
  }

  lemma WorkKeeps(s: State, w: nat, fate: Fate, now: int, env: Env, origin: Backend)
    requires Inv(s, origin) && WellFormed(origin, env) && w in s.workers
    ensures Inv(WorkStep(s, w, fate, now, env), origin)
  {
    var k := s.workers[w];
    if fate.Crash? { DropKeeps(s, w, origin); }
    else if k.RestorePhase? { RestorePhaseKeeps(s, w, fate, now, env, origin); }
    else if k.RestoreBlobs? { RestoreBlobsKeeps(s, w, fate, now, env, origin); }
    else if k.RestoreWrite? { RestoreWriteKeeps(s, w, fate, now, env, origin); }
    else if k.RestoreEdges? { RestoreEdgesKeeps(s, w, fate, now, env, origin); }
    else if k.RestoreCommit? { RestoreCommitKeeps(s, w, fate, origin); }
    else if k.Phase? { PhaseKeeps(s, w, fate, env, origin); }
    else if k.HasEntry? { ReadEntryKeeps(s, w, fate, now, env, origin); }
    else if k.HasEdges? { ReadVectorKeeps(s, w, fate, now, env, origin); }
    else if k.HasAll? { PutKeeps(s, w, fate, now, env, origin); }
    else if k.RemovingEdges? { EdgeRemovalKeeps(s, w, fate, origin); }
    else if k.DeletingBlobs? { BlobRemovalKeeps(s, w, fate, origin); }
    else { JournalKeeps(s, w, fate, now, origin); }
  }

  lemma StepKeeps(s: State, a: Action, env: Env, origin: Backend)
    requires Inv(s, origin) && WellFormed(origin, env)
    ensures Inv(Step(s, a, env), origin)
  {
    match a
    case Submit(id, uri, now) => SubmitKeeps(s, id, uri, now, origin);
    case Claim(w, now) =>
      if w !in s.workers && s.journal.Some? && Claimable(s.journal.value, now) { ClaimKeeps(s, w, now, origin); }
    case BeginRestore(w) =>
      if w !in s.workers && s.cold.Some? && s.journal.Some? && s.journal.value.state.Succeeded? {
        BeginRestoreKeeps(s, w, origin);
      }
    case Work(w, fate, now) =>
      if w in s.workers { WorkKeeps(s, w, fate, now, env, origin); }
  }

  /** Every run of any length, with any interleaving, crashes and failures, keeps the invariant. */
  lemma {:induction false} RunKeeps(s: State, acts: seq<Action>, env: Env, origin: Backend)
    requires Inv(s, origin) && WellFormed(origin, env)
    ensures Inv(Run(s, acts, env), origin)
    decreases |acts|
  {
    if acts != [] {
      StepKeeps(s, acts[0], env, origin);
      RunKeeps(Step(s, acts[0], env), acts[1..], env, origin);
    }
  }
}
