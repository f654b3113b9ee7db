/**
  Restore: from a succeeded job, a restore rebuilds the stores the job was submitted against, up
  to the stamp on the entry, unless an entry a store has stamped stands without its checkpoint.
  What is rebuilt lasts if and only if no executor that outlived its lease still stands before
  an item it would erase.
*/
module LifecycleRestore {
  import opened Prelude
  import opened LifecycleModel
  import opened LifecycleSafety
  import opened LifecycleFencing
  import opened LifecycleStamps
  import opened LifecycleResume

  /** What the restore checkpoints `f` say is back. */
  ghost predicate BackUpTo(f: Flags, b: Backend, origin: Backend, uri: Uri, m: Manifest)
  {
    && (f.blobs ==> Hashes(m.blobs) <= b.blobs.Keys)
    && (f.content ==> uri in b.content)
    && (f.graph ==> Touching(origin.edges, uri) <= b.edges)
    && (f.vector ==> (uri in origin.vectors ==> uri in b.vectors))
  }

  ghost predicate Rebuilding(k: Worker, b: Backend, origin: Backend, uri: Uri, m: Manifest)
  {
    && k.Restorer()
    && BackUpTo(k.job.restore, b, origin, uri, m)
    && (k.RestoreBlobs? ==> forall i :: 0 <= i < k.done && i < |m.blobs| ==> m.blobs[i].0.hash in b.blobs)
    && (k.RestoreEdges? ==> forall i :: 0 <= i < k.done && i < |m.edges| ==> m.edges[i] in b.edges)
  }

  /**
    An executor that stands before something of `origin` it would erase: by where it is, what it has
    checkpointed and what it has left to do.
  */
  ghost predicate Harmful(k: Worker, origin: Backend)
  {
    var uri, cp := k.job.uri, k.job.checkpoint;
    match k
    case RemovingEdges(_, todo) => todo != []
    case DeletingBlobs(_, doomed) => doomed != []
    case Phase(_) =>
      if !cp.manifest then false
      else if !cp.vector then uri in origin.vectors
      else if !cp.graph then Touching(origin.edges, uri) != {}
      else if !cp.content then true
      else !cp.blobs && uri in origin.content && CollectBlobs(origin.content[uri].payload) != []
    case _ => false
  }

  /** The job has succeeded, the checkpoints of the restores alive are truthful, and no executor alive is harmful. */
  ghost predicate Restoring(s: State, origin: Backend)
  {
    && Inv(s, origin) && s.journal.Some? && s.journal.value.state.Succeeded? && s.cold.Some?
    && BackUpTo(s.journal.value.restore, s.backend, origin, s.journal.value.uri, s.cold.value)
    && forall x :: x in s.workers ==> Benign(s.workers[x], s.backend, origin, s.journal.value.uri, s.cold.value)
  }

  ghost predicate Benign(k: Worker, b: Backend, origin: Backend, uri: Uri, m: Manifest)
  {
    if k.Restorer() then Rebuilding(k, b, origin, uri, m) else !Harmful(k, origin)
  }

  ghost predicate Grows(b: Backend, b': Backend)
  {
    && b.content.Keys <= b'.content.Keys && b.vectors.Keys <= b'.vectors.Keys
    && b.blobs.Keys <= b'.blobs.Keys && b.edges <= b'.edges
  }

  predicate Restored(d: Job)
  {
    d.restore.blobs && d.restore.content && d.restore.graph && d.restore.vector
  }

  /** Once all four restore checkpoints are durable the stores are those of the beginning, the entry stamped. */
  lemma RestoredExactly(s: State, env: Env, origin: Backend)
    requires Restoring(s, origin) && Traced(s, env) && Restored(s.journal.value)
    ensures UpToStamp(s.backend, origin, s.journal.value.uri, env)
  {
    WholeAgain(s.backend, origin, s.journal.value.uri, s.cold.value);
  }

  lemma WholeAgain(b: Backend, origin: Backend, uri: Uri, m: Manifest)
    requires Exact(m, origin, uri) && Within(b, origin, uri, m)
    requires uri in b.content && (uri in origin.vectors ==> uri in b.vectors)
    requires Touching(origin.edges, uri) <= b.edges && Hashes(m.blobs) <= b.blobs.Keys
    ensures uri in origin.content && b.(content := b.content[uri := origin.content[uri]]) == origin
  {
    assert b.edges == origin.edges;
    var content := b.content[uri := origin.content[uri]];
    assert content - {uri} == b.content - {uri};
    MapFromParts(content, origin.content, {uri});
    if uri in b.vectors || uri in origin.vectors { MapFromParts(b.vectors, origin.vectors, {uri}); }
    else { assert b.vectors == b.vectors - {uri} && origin.vectors == origin.vectors - {uri}; }
    forall h | h in Hashes(m.blobs) ensures h in origin.blobs {
      var i :| 0 <= i < |m.blobs| && m.blobs[i].0.hash == h;
    }
    MapFromParts(b.blobs, origin.blobs, Hashes(m.blobs));
  }

  lemma MapFromParts<K, V>(a: map<K, V>, b: map<K, V>, keys: set<K>)
    requires a - keys == b - keys
    requires forall k :: k in keys ==> k in a && k in b && a[k] == b[k]
    ensures a == b
  {
    forall k | k in a || k in b ensures k in a && k in b && a[k] == b[k] {
      if k !in keys {
        if k in a { assert k in (a - keys); }
        if k in b { assert k in (b - keys); }
        assert (a - keys)[k] == (b - keys)[k];
      }
    }
  }

  // ------------------------------------------------------------------ one restore step

  /** What a restore await must achieve. */
  ghost predicate Progress(s: State, w: nat, t: State, origin: Backend)
    requires s.journal.Some? && s.cold.Some? && w in s.workers
  {
    && Grows(s.backend, t.backend)
    && (w in t.workers ==> Rebuilding(t.workers[w], t.backend, origin, s.journal.value.uri, s.cold.value))
    && t.journal.Some?
    && (t.journal.value.restore == s.journal.value.restore || t.journal.value.restore == s.workers[w].job.restore)
  }

  lemma BlobsBack(job: Job, m: Manifest, done: nat, b: Backend, origin: Backend, uri: Uri)
    requires BackUpTo(job.restore, b, origin, uri, m)
    requires forall i :: 0 <= i < done && i < |m.blobs| ==> m.blobs[i].0.hash in b.blobs
    ensures Rebuilding(BlobsRestored(job, m, done), b, origin, uri, m)
  {
  }

  lemma BlobProgress(s: State, w: nat, fate: Fate, now: int, env: Env, origin: Backend)
    requires Restoring(s, origin) && WellFormed(origin, env) && w in s.workers && s.workers[w].RestoreBlobs?
    ensures Progress(s, w, RestoreStep(s, w, s.workers[w], fate, now, env), origin)
  {
    var k := s.workers[w];
    var d := s.journal.value;
    var m, done := s.cold.value, k.done;
    assert WorkerOk(k, d, s.cold, s.backend, origin);
    assert Benign(k, s.backend, origin, d.uri, m);
    if done < |m.blobs| {
      ManifestBlob(m, origin, d.uri, done, env);
      var h := m.blobs[done].0.hash;
      var b := s.backend.(blobs := s.backend.blobs[h := m.blobs[done].1]);
      assert Grows(s.backend, b);
      BlobsBack(k.job, m, done + 1, b, origin, d.uri);
    } else {
      BlobsBack(k.job, m, done, s.backend, origin, d.uri);
    }
  }

  lemma WriteProgress(s: State, w: nat, fate: Fate, now: int, env: Env, origin: Backend)
    requires Restoring(s, origin) && WellFormed(origin, env) && w in s.workers && s.workers[w].RestoreWrite?
    ensures Progress(s, w, RestoreStep(s, w, s.workers[w], fate, now, env), origin)
  {
  }

  lemma EdgesBack(job: Job, m: Manifest, done: nat, b: Backend, origin: Backend, uri: Uri)
    requires BackUpTo(job.restore, b, origin, uri, m) && Touching(origin.edges, uri) == Elements(m.edges)
    requires forall i :: 0 <= i < done && i < |m.edges| ==> m.edges[i] in b.edges
    ensures Rebuilding(EdgesRestored(job, m, done), b, origin, uri, m)
  {
    if done >= |m.edges| {
      forall e | e in Elements(m.edges) ensures e in b.edges {
        var i :| 0 <= i < |m.edges| && m.edges[i] == e;
      }
    }
  }

  lemma EdgeProgress(s: State, w: nat, fate: Fate, now: int, env: Env, origin: Backend)
    requires Restoring(s, origin) && w in s.workers && s.workers[w].RestoreEdges?
    ensures Progress(s, w, RestoreStep(s, w, s.workers[w], fate, now, env), origin)
  {
    var k := s.workers[w];
    var uri, m := s.journal.value.uri, s.cold.value;
    assert WorkerOk(k, s.journal.value, s.cold, s.backend, origin);
    assert Benign(k, s.backend, origin, uri, m);
    if k.done < |m.edges| {
      var b := s.backend.(edges := s.backend.edges + {m.edges[k.done]});
      EdgesBack(k.job, m, k.done + 1, b, origin, uri);
    } else {
      EdgesBack(k.job, m, k.done, s.backend, origin, uri);
    }
  }

  lemma CommitProgress(s: State, w: nat, fate: Fate, now: int, env: Env, origin: Backend)
    requires Restoring(s, origin) && w in s.workers && s.workers[w].RestoreCommit?
    ensures Progress(s, w, RestoreStep(s, w, s.workers[w], fate, now, env), origin)
  {
  }

  /** The stores only grow, and the moving restorer's claims become true as it makes them. */
  lemma RestoreProgress(s: State, w: nat, fate: Fate, now: int, env: Env, origin: Backend)
    requires Restoring(s, origin) && WellFormed(origin, env) && w in s.workers && s.workers[w].Restorer()
    ensures Progress(s, w, RestoreStep(s, w, s.workers[w], fate, now, env), origin)
  {
    var k := s.workers[w];
    assert Benign(k, s.backend, origin, s.journal.value.uri, s.cold.value);
    if k.RestorePhase? { RestorePhaseProgress(s, w, fate, now, env, origin); }
    else if k.RestoreBlobs? { BlobProgress(s, w, fate, now, env, origin); }
    else if k.RestoreWrite? { WriteProgress(s, w, fate, now, env, origin); }
    else if k.RestoreEdges? { EdgeProgress(s, w, fate, now, env, origin); }
    else { CommitProgress(s, w, fate, now, env, origin); }
  }

  lemma RestorePhaseProgress(s: State, w: nat, fate: Fate, now: int, env: Env, origin: Backend)
    requires Restoring(s, origin) && WellFormed(origin, env) && w in s.workers && s.workers[w].RestorePhase?
    ensures var t := RestoreStep(s, w, s.workers[w], fate, now, env);
            && Grows(s.backend, t.backend) && t.journal == s.journal
            && (w in t.workers ==> Rebuilding(t.workers[w], t.backend, origin, s.journal.value.uri, s.cold.value))
  {
    var k := s.workers[w];
    var m, uri := s.cold.value, s.journal.value.uri;
    assert WorkerOk(k, s.journal.value, s.cold, s.backend, origin);
    assert Benign(k, s.backend, origin, uri, m);
    assert m.entry.uri == uri;
    if !k.job.restore.blobs { BlobsBack(k.job, m, 0, s.backend, origin, uri); }
    else if k.job.restore.content && !k.job.restore.graph { EdgesBack(k.job, m, 0, s.backend, origin, uri); }
    else if k.job.restore.content { VectorBack(s, w, fate, now, env, origin); }
  }

  lemma VectorBack(s: State, w: nat, fate: Fate, now: int, env: Env, origin: Backend)
    requires s.journal.Some? && s.cold.Some? && Exact(s.cold.value, origin, s.journal.value.uri)
    requires WellFormed(origin, env) && w in s.workers && s.workers[w].RestorePhase? && s.workers[w].m == s.cold.value
    requires Rebuilding(s.workers[w], s.backend, origin, s.journal.value.uri, s.cold.value)
    requires var f := s.workers[w].job.restore; f.blobs && f.content && f.graph
    ensures var t := RestoreStep(s, w, s.workers[w], fate, now, env);
            && Grows(s.backend, t.backend) && t.journal == s.journal
            && (w in t.workers ==> Rebuilding(t.workers[w], t.backend, origin, s.journal.value.uri, s.cold.value))
  {
    assert s.cold.value.vector.Some? ==> s.cold.value.vector.value.uri == s.journal.value.uri;
  }

  lemma GrowBenign(k: Worker, b: Backend, b': Backend, origin: Backend, uri: Uri, m: Manifest)
    requires Benign(k, b, origin, uri, m) && Grows(b, b')
    ensures Benign(k, b', origin, uri, m)
  {
  }

  // ------------------------------------------------------------------ executors that outlived their lease

  lemma StalePhase(s: State, w: nat, fate: Fate, env: Env, origin: Backend)
    requires Inv(s, origin) && s.journal.Some? && s.journal.value.state.Succeeded?
    requires w in s.workers && s.workers[w].Phase? && !Harmful(s.workers[w], origin)
    ensures var t := PhaseStep(s, w, s.workers[w].job, fate, env);
            t.backend == s.backend && t.journal == s.journal && (w in t.workers ==> !Harmful(t.workers[w], origin))
  {
    var k := s.workers[w];
    assert WorkerOk(k, s.journal.value, s.cold, s.backend, origin);
    var uri, m := s.journal.value.uri, s.cold;
    if k.job.checkpoint.manifest {
      assert uri !in s.backend.vectors ==> s.backend.vectors - {uri} == s.backend.vectors;
      assert Touching(origin.edges, uri) == Elements(m.value.edges);
      assert Touching(origin.edges, uri) == {} ==> m.value.edges == [] by {
        if m.value.edges != [] { assert m.value.edges[0] in Elements(m.value.edges); }
      }
      assert |m.value.blobs| == |CollectBlobs(origin.content[uri].payload)|;
    }
  }

  /** Its copy is behind the record, so no update of its own is accepted. */
  lemma StaleJournal(s: State, w: nat, fate: Fate, now: int, env: Env, origin: Backend)
    requires Inv(s, origin) && s.journal.Some? && s.journal.value.state.Succeeded? && w in s.workers
    requires s.workers[w].Claimed? || s.workers[w].Commit? || s.workers[w].Failing?
    ensures var t := JournalStep(s, w, s.workers[w], fate, now);
            t.backend == s.backend && t.journal == s.journal && (w in t.workers ==> !Harmful(t.workers[w], origin))
  {
    assert WorkerOk(s.workers[w], s.journal.value, s.cold, s.backend, origin);
    assert s.workers[w].job.revision < s.journal.value.revision;
  }

  lemma StaleOther(s: State, w: nat, fate: Fate, now: int, env: Env, origin: Backend)
    requires Inv(s, origin) && s.journal.Some? && s.journal.value.state.Succeeded? && w in s.workers
    requires var k := s.workers[w];
             k.HasEntry? || k.HasEdges? || k.HasAll? || (k.RemovingEdges? && k.todo == [])
               || (k.DeletingBlobs? && k.doomed == [])
    requires !fate.Crash?
    ensures var t := WorkStep(s, w, fate, now, env);
            t.backend == s.backend && t.journal == s.journal && (w in t.workers ==> !Harmful(t.workers[w], origin))
  {
  }

  /**
    After success an executor that is not harmful changes neither the stores nor the record, and does
    not become harmful.
  */
  lemma StaleStep(s: State, w: nat, fate: Fate, now: int, env: Env, origin: Backend)
    requires Inv(s, origin) && s.journal.Some? && s.journal.value.state.Succeeded?
    requires w in s.workers && !s.workers[w].Restorer() && !Harmful(s.workers[w], origin)
    ensures var t := WorkStep(s, w, fate, now, env);
            t.backend == s.backend && t.journal == s.journal && (w in t.workers ==> !Harmful(t.workers[w], origin))
  {
    if fate.Crash? {
    } else if s.workers[w].Phase? {
      StalePhase(s, w, fate, env, origin);
    } else if s.workers[w].Claimed? || s.workers[w].Commit? || s.workers[w].Failing? {
      StaleJournal(s, w, fate, now, env, origin);
    } else {
      StaleOther(s, w, fate, now, env, origin);
    }
  }

  lemma BenignStep(s: State, w: nat, fate: Fate, now: int, env: Env, origin: Backend)
    requires Restoring(s, origin) && WellFormed(origin, env) && w in s.workers
    ensures var t := WorkStep(s, w, fate, now, env);
            && Grows(s.backend, t.backend) && t.journal.Some?
            && (w in t.workers ==> Benign(t.workers[w], t.backend, origin, s.journal.value.uri, s.cold.value))
            && (t.journal.value.restore == s.journal.value.restore
                || (s.workers[w].Restorer() && t.journal.value.restore == s.workers[w].job.restore))
  {
    var k := s.workers[w];
    assert Benign(k, s.backend, origin, s.journal.value.uri, s.cold.value);
    WorkShape(s, w, fate, now, env);
    if !k.Restorer() { StaleStep(s, w, fate, now, env, origin); }
    else if !fate.Crash? { RestoreProgress(s, w, fate, now, env, origin); }
  }

  lemma RestoringStep(s: State, a: Action, env: Env, origin: Backend)
    requires Restoring(s, origin) && WellFormed(origin, env)
    ensures Restoring(Step(s, a, env), origin) && Grows(s.backend, Step(s, a, env).backend)
  {
    var d := s.journal.value;
    var t := Step(s, a, env);
    StepKeeps(s, a, env, origin);
    JournalOnlyAdvances(s, a, env, origin);
    if a.Work? && a.worker in s.workers {
      WorkShape(s, a.worker, a.fate, a.now, env);
      BenignStep(s, a.worker, a.fate, a.now, env, origin);
      assert Benign(s.workers[a.worker], s.backend, origin, d.uri, s.cold.value);
      forall x | x in t.workers ensures Benign(t.workers[x], t.backend, origin, d.uri, s.cold.value) {
        if x != a.worker {
          assert x in t.workers - {a.worker};
          assert Benign(s.workers[x], s.backend, origin, d.uri, s.cold.value);
          GrowBenign(s.workers[x], s.backend, t.backend, origin, d.uri, s.cold.value);
        }
      }
    }
  }

  /** Any number of restores, crashed or not, keep the checkpoints truthful and never take anything away again. */
  lemma {:induction false} RestoringRun(s: State, acts: seq<Action>, env: Env, origin: Backend)
    requires Restoring(s, origin) && WellFormed(origin, env)
    ensures Restoring(Run(s, acts, env), origin) && Grows(s.backend, Run(s, acts, env).backend)
    decreases |acts|
  {
    if acts != [] {
      RestoringStep(s, acts[0], env, origin);
      RestoringRun(Step(s, acts[0], env), acts[1..], env, origin);
    }
  }

  /** A finished restore is final: whatever runs afterwards, the stores stay as they were, but for the entry's stamp. */
  lemma RestoredStays(s: State, acts: seq<Action>, env: Env, origin: Backend)
    requires Restoring(s, origin) && Traced(s, env) && WellFormed(origin, env) && Restored(s.journal.value)
    ensures UpToStamp(Run(s, acts, env).backend, origin, s.journal.value.uri, env)
  {
    RestoredExactly(s, env, origin);
    RestoringRun(s, acts, env, origin);
    RunKeepsTraced(s, acts, env, origin);
    var t := Run(s, acts, env);
    RunOnlyAdvances(s, acts, env, origin);
    WholeAgain(t.backend, origin, t.journal.value.uri, t.cold.value);
  }

  // ------------------------------------------------------------------ one restore without faults

  ghost function RestoreRank(k: Worker): (nat, nat)
  {
    var f := k.job.restore;
    var base := 10 * ((if f.blobs then 0 else 1) + (if f.content then 0 else 1)
                      + (if f.graph then 0 else 1) + (if f.vector then 0 else 1));
    match k
    case RestoreCommit(_, _) => (base + 4, 0)
    case RestorePhase(_, _) => (base + 3, 0)
    case RestoreWrite(_, _) => (base + 2, 0)
    case RestoreBlobs(_, m, done) => (base + 1, if done <= |m.blobs| then |m.blobs| - done else 0)
    case RestoreEdges(_, m, done) => (base + 1, if done <= |m.edges| then |m.edges| - done else 0)
    case _ => (0, 0)
  }

  /** A restorer between its checkpoints: what it is doing is not checkpointed yet. */
  ghost predicate RestoreInOrder(k: Worker)
  {
    var f := k.job.restore;
    && k.Restorer()
    && (k.RestoreBlobs? ==> !f.blobs)
    && (k.RestoreWrite? ==> !f.content)
    && (k.RestoreEdges? ==> !f.graph)
  }

  lemma RestorePhaseDecreases(s: State, w: nat, now: int, env: Env)
    requires w in s.workers && s.workers[w].RestorePhase?
    ensures var t := RestoreStep(s, w, s.workers[w], Fine, now, env);
            w in t.workers ==>
              RestoreInOrder(t.workers[w]) && Nearer(RestoreRank(t.workers[w]), RestoreRank(s.workers[w]))
  {
  }

  lemma RestoreDecreases(s: State, w: nat, now: int, env: Env)
    requires w in s.workers && RestoreInOrder(s.workers[w])
    ensures var t := RestoreStep(s, w, s.workers[w], Fine, now, env);
            w in t.workers ==>
              RestoreInOrder(t.workers[w]) && Nearer(RestoreRank(t.workers[w]), RestoreRank(s.workers[w]))
  {
    if s.workers[w].RestorePhase? { RestorePhaseDecreases(s, w, now, env); }
    else if s.workers[w].RestoreCommit? { SaveStores(s.journal, s.workers[w].job, Fine); }
  }

  /** Restore `w` alone, awaiting until it returns. */
  ghost function DriveRestore(s: State, w: nat, clock: nat -> int, i: nat, env: Env): State
    requires w in s.workers ==> RestoreInOrder(s.workers[w])
    decreases if w in s.workers then RestoreRank(s.workers[w]).0 + 1 else 0,
              if w in s.workers then RestoreRank(s.workers[w]).1 else 0
  {
    if w !in s.workers then s
    else
      RestoreDecreases(s, w, clock(i), env);
      DriveRestore(RestoreStep(s, w, s.workers[w], Fine, clock(i), env), w, clock, i + 1, env)
  }

  /** The entry is there, and is not the one in the manifest. */
  predicate Clashes(s: State)
  {
    && s.journal.Some? && s.cold.Some? && s.journal.value.uri in s.backend.content
    && s.backend.content[s.journal.value.uri] != s.cold.value.entry
  }

  /** The window of a restore: an entry that was stamped when it was written back, without its checkpoint. */
  predicate InRestoreWindow(s: State)
  {
    Clashes(s) && s.journal.value.state.Succeeded? && !s.journal.value.restore.content
  }

  /** Nothing stops restore `w` at the entry. */
  predicate Unhindered(s: State, w: nat)
    requires w in s.workers
  {
    var k := s.workers[w];
    k.RestoreWrite? || k.job.restore.content || !Clashes(s)
  }

  lemma DriveRestores(s: State, w: nat, clock: nat -> int, i: nat, env: Env, origin: Backend)
    requires Restoring(s, origin) && WellFormed(origin, env) && w in s.workers && RestoreInOrder(s.workers[w])
    requires KeepsPace(s, w)
    ensures var t := DriveRestore(s, w, clock, i, env);
            && Restoring(t, origin) && Restored(t.journal.value) && t.journal.value.uri == s.journal.value.uri
            && (Traced(s, env) ==> Traced(t, env))
    decreases RestoreRank(s.workers[w]).0, RestoreRank(s.workers[w]).1
  {
    var k := s.workers[w];
    var a := Work(w, Fine, clock(i));
    var t := RestoreStep(s, w, k, Fine, clock(i), env);
    assert WorkerOk(k, s.journal.value, s.cold, s.backend, origin);
    assert t == Step(s, a, env);
    RestoringStep(s, a, env, origin);
    JournalOnlyAdvances(s, a, env, origin);
    if Traced(s, env) { StepKeepsTraced(s, a, env, origin); }
    RestoreDecreases(s, w, clock(i), env);
    if !(k.RestorePhase? && Restored(s.journal.value)) {
      RestoreGoesOn(s, w, clock(i), env, origin);
      DriveRestores(t, w, clock, i + 1, env, origin);
    }
  }

  /** The restorer is still there, at the record's revision, carries the record itself between phases, and can go on. */
  ghost predicate KeepsPace(t: State, w: nat)
  {
    && t.journal.Some? && w in t.workers && Unhindered(t, w)
    && t.workers[w].job.revision == t.journal.value.revision
    && (t.workers[w].RestorePhase? ==> t.workers[w].job == t.journal.value)
  }

  lemma PhaseGoesOn(s: State, w: nat, now: int, env: Env, origin: Backend)
    requires Restoring(s, origin) && WellFormed(origin, env) && w in s.workers && s.workers[w].RestorePhase?
    requires KeepsPace(s, w) && !Restored(s.journal.value)
    ensures KeepsPace(RestoreStep(s, w, s.workers[w], Fine, now, env), w)
  {
    assert WorkerOk(s.workers[w], s.journal.value, s.cold, s.backend, origin);
    assert s.cold.value.entry.uri == s.journal.value.uri;
  }

  lemma BlobsGoOn(s: State, w: nat, now: int, env: Env, origin: Backend)
    requires Restoring(s, origin) && WellFormed(origin, env) && w in s.workers && s.workers[w].RestoreBlobs?
    requires KeepsPace(s, w)
    ensures KeepsPace(RestoreStep(s, w, s.workers[w], Fine, now, env), w)
  {
    var k := s.workers[w];
    assert WorkerOk(k, s.journal.value, s.cold, s.backend, origin);
    if k.done < |k.m.blobs| { ManifestBlob(k.m, origin, s.journal.value.uri, k.done, env); }
  }

  lemma RestoreGoesOn(s: State, w: nat, now: int, env: Env, origin: Backend)
    requires Restoring(s, origin) && WellFormed(origin, env) && w in s.workers && s.workers[w].Restorer()
    requires KeepsPace(s, w) && (s.workers[w].RestorePhase? ==> !Restored(s.journal.value))
    ensures KeepsPace(RestoreStep(s, w, s.workers[w], Fine, now, env), w)
  {
    if s.workers[w].RestorePhase? { PhaseGoesOn(s, w, now, env, origin); }
    else if s.workers[w].RestoreBlobs? { BlobsGoOn(s, w, now, env, origin); }
  }

  /**
    The round trip.  Start from any state reached by any run in which the job has succeeded, no
    restore has begun and no executor alive is harmful; let any further run happen (restores
    that crash, fail or race, executors that fall behind).  Then one undisturbed restore
    completes if and only if no stamped entry stands without its checkpoint.  It leaves the
    original stores up to the stamp, and nothing that runs later changes that; in the window it
    leaves everything as it is.
  */
  lemma RoundTrip(origin: Backend, before: seq<Action>, between: seq<Action>, w: nat, clock: nat -> int,
    later: seq<Action>, env: Env)
    requires WellFormed(origin, env)
    requires var s := Run(Start(origin), before, env); Archived(s, origin) && w !in Run(s, between, env).workers
    ensures var t := Run(Run(Start(origin), before, env), between, env);
            var begun := Step(t, BeginRestore(w), env);
            && t.journal.Some? && w in begun.workers && begun.workers[w].RestorePhase?
            && var done, uri := DriveRestore(begun, w, clock, 0, env), t.journal.value.uri;
            && done.journal.Some? && (Restored(done.journal.value) <==> !InRestoreWindow(t))
            && (InRestoreWindow(t) ==> done == t)
            && (!InRestoreWindow(t) ==>
                  UpToStamp(done.backend, origin, uri, env)
                  && UpToStamp(Run(done, later, env).backend, origin, uri, env))
  {
    var s := Run(Start(origin), before, env);
    RunKeepsTraced(Start(origin), before, env, origin);
    var t := Run(s, between, env);
    RestoringRun(s, between, env, origin);
    RunKeepsTraced(s, between, env, origin);
    var begun := Step(t, BeginRestore(w), env);
    RestoringStep(t, BeginRestore(w), env, origin);
    StepKeepsTraced(t, BeginRestore(w), env, origin);
    if InRestoreWindow(t) {
      RestoreRefused(t, w, clock, env, origin);
    } else {
      DriveRestores(begun, w, clock, 0, env, origin);
      var done := DriveRestore(begun, w, clock, 0, env);
      RestoredExactly(done, env, origin);
      RestoredStays(done, later, env, origin);
    }
  }

  /** The job has succeeded, no restore has begun, and no executor alive is harmful. */
  ghost predicate Archived(s: State, origin: Backend)
  {
    && s.journal.Some? && s.journal.value.state.Succeeded? && s.journal.value.restore == NO_FLAGS
    && forall x :: x in s.workers ==> !s.workers[x].Restorer() && !Harmful(s.workers[x], origin)
  }

  /** A restore begins and is gone again, with nothing changed. */
  ghost predicate Refuses(t: State, w: nat, clock: nat -> int, env: Env)
  {
    var begun := Step(t, BeginRestore(w), env);
    w in begun.workers && begun.workers[w].RestorePhase? && DriveRestore(begun, w, clock, 0, env) == t
  }

  /** In the window a restore reads the entry, finds it changed, and is gone. */
  lemma RestoreRefused(t: State, w: nat, clock: nat -> int, env: Env, origin: Backend)
    requires Inv(t, origin) && Traced(t, env) && WellFormed(origin, env) && InRestoreWindow(t) && w !in t.workers
    ensures Refuses(t, w, clock, env)
  {
    var begun := Step(t, BeginRestore(w), env);
    assert t.cold.value.entry.uri == t.journal.value.uri;
    assert RestoreStep(begun, w, begun.workers[w], Fine, clock(0), env) == Drop(begun, w);
    assert Drop(begun, w).workers == t.workers;
  }

  /** A store that writes verbatim is never in the window, and gets back exactly what it held. */
  lemma VerbatimRoundTrip(origin: Backend, before: seq<Action>, between: seq<Action>, w: nat, clock: nat -> int,
    later: seq<Action>, env: Env)
    requires WellFormed(origin, env) && Verbatim(env)
    requires var s := Run(Start(origin), before, env); Archived(s, origin) && w !in Run(s, between, env).workers
    ensures var t := Run(Run(Start(origin), before, env), between, env);
            var begun := Step(t, BeginRestore(w), env);
            && w in begun.workers && begun.workers[w].RestorePhase?
            && var done := DriveRestore(begun, w, clock, 0, env);
            && !InRestoreWindow(t) && done.backend == origin && Run(done, later, env).backend == origin
  {
    RoundTrip(origin, before, between, w, clock, later, env);
    var s := Run(Start(origin), before, env);
    RunKeepsTraced(Start(origin), before, env, origin);
    var t := Run(s, between, env);
    RunKeepsTraced(s, between, env, origin);
    var done := DriveRestore(Step(t, BeginRestore(w), env), w, clock, 0, env);
    var uri := t.journal.value.uri;
    assert WrittenBack(t.journal.value, t.cold, t.backend, env);
    VerbatimIsExact(done.backend, origin, uri, env);
    VerbatimIsExact(Run(done, later, env).backend, origin, uri, env);
  }

  // ------------------------------------------------------------------ the window of a restore

  /** No restore alive is about to write the entry, or to store its checkpoint. */
  predicate NoCarrier(s: State)
    requires s.journal.Some?
  {
    forall x :: x in s.workers ==> !Carries(s.workers[x], s.journal.value)
  }

  predicate Carries(k: Worker, d: Job)
  {
    k.RestoreWrite? || (k.RestoreCommit? && k.job.restore.content && k.job.revision == d.revision)
  }

  /** In the window with nobody left to store the checkpoint. */
  ghost predicate RestoreStuck(s: State, env: Env, origin: Backend)
  {
    Restoring(s, origin) && Traced(s, env) && InRestoreWindow(s) && NoCarrier(s)
  }

  /** What an await leaves of it. */
  ghost predicate StillStuck(s: State, w: nat, t: State)
    requires s.journal.Some?
  {
    && t.backend == s.backend && t.journal.Some? && t.journal.value.restore.content == s.journal.value.restore.content
    && (t.journal == s.journal || t.journal.value.revision == s.journal.value.revision + 1)
    && (w in t.workers ==> !Carries(t.workers[w], t.journal.value))
  }

  lemma StuckPhase(s: State, w: nat, fate: Fate, now: int, env: Env, origin: Backend)
    requires RestoreStuck(s, env, origin) && WellFormed(origin, env) && w in s.workers && s.workers[w].RestorePhase?
    ensures StillStuck(s, w, RestoreStep(s, w, s.workers[w], fate, now, env))
  {
    assert WorkerOk(s.workers[w], s.journal.value, s.cold, s.backend, origin);
    assert InStep(s.workers[w], s.journal.value);
    assert s.cold.value.entry.uri == s.journal.value.uri;
  }

  lemma StuckBlobs(s: State, w: nat, fate: Fate, now: int, env: Env, origin: Backend)
    requires RestoreStuck(s, env, origin) && WellFormed(origin, env) && w in s.workers && s.workers[w].RestoreBlobs?
    ensures StillStuck(s, w, RestoreStep(s, w, s.workers[w], fate, now, env))
  {
    var k := s.workers[w];
    assert WorkerOk(k, s.journal.value, s.cold, s.backend, origin);
    assert InStep(k, s.journal.value);
    if k.done < |k.m.blobs| {
      ManifestBlob(k.m, origin, s.journal.value.uri, k.done, env);
      var h := k.m.blobs[k.done].0.hash;
      assert s.backend.blobs[h := k.m.blobs[k.done].1] == s.backend.blobs;
    }
  }

  lemma StuckCommit(s: State, w: nat, fate: Fate, now: int, env: Env, origin: Backend)
    requires RestoreStuck(s, env, origin) && w in s.workers && s.workers[w].RestoreCommit?
    ensures StillStuck(s, w, RestoreStep(s, w, s.workers[w], fate, now, env))
  {
    assert !Carries(s.workers[w], s.journal.value);
    assert WorkerOk(s.workers[w], s.journal.value, s.cold, s.backend, origin);
  }

  lemma StuckAwait(s: State, w: nat, fate: Fate, now: int, env: Env, origin: Backend)
    requires RestoreStuck(s, env, origin) && WellFormed(origin, env) && w in s.workers
    ensures StillStuck(s, w, WorkStep(s, w, fate, now, env))
  {
    var k := s.workers[w];
    assert InStep(k, s.journal.value) && !Carries(k, s.journal.value);
    assert Benign(k, s.backend, origin, s.journal.value.uri, s.cold.value);
    if fate.Crash? {
    } else if !k.Restorer() {
      StaleStep(s, w, fate, now, env, origin);
      WorkShape(s, w, fate, now, env);
    } else if k.RestorePhase? {
      StuckPhase(s, w, fate, now, env, origin);
    } else if k.RestoreBlobs? {
      StuckBlobs(s, w, fate, now, env, origin);
    } else {
      StuckCommit(s, w, fate, now, env, origin);
    }
  }

  lemma RestoreStuckStep(s: State, a: Action, env: Env, origin: Backend)
    requires RestoreStuck(s, env, origin) && WellFormed(origin, env)
    ensures var t := Step(s, a, env); RestoreStuck(t, env, origin) && t.backend == s.backend
  {
    var t := Step(s, a, env);
    RestoringStep(s, a, env, origin);
    StepKeepsTraced(s, a, env, origin);
    JournalOnlyAdvances(s, a, env, origin);
    if a.Work? && a.worker in s.workers {
      StuckAwait(s, a.worker, a.fate, a.now, env, origin);
      WorkShape(s, a.worker, a.fate, a.now, env);
      forall x | x in t.workers ensures !Carries(t.workers[x], t.journal.value) {
        if x != a.worker {
          assert x in t.workers - {a.worker};
          assert !Carries(s.workers[x], s.journal.value);
          assert WorkerOk(s.workers[x], s.journal.value, s.cold, s.backend, origin);
        }
      }
    }
  }

  /** No continuation finishes the restore or brings back an edge or the vector: every restore is refused. */
  lemma {:induction false} RestoreStuckForever(s: State, acts: seq<Action>, env: Env, origin: Backend)
    requires RestoreStuck(s, env, origin) && WellFormed(origin, env)
    ensures var t := Run(s, acts, env);
            && RestoreStuck(t, env, origin) && t.backend == s.backend && !Restored(t.journal.value)
            && forall w, clock :: w !in t.workers ==> Refuses(t, w, clock, env)
    decreases |acts|
  {
    if acts != [] {
      RestoreStuckStep(s, acts[0], env, origin);
      RestoreStuckForever(Step(s, acts[0], env), acts[1..], env, origin);
    } else {
      forall w, clock | w !in s.workers ensures Refuses(s, w, clock, env) {
        RestoreRefused(s, w, clock, env, origin);
      }
    }
  }

  /** A crash of the only restore before that checkpoint, the store having stamped the entry, leads there. */
  lemma CrashInRestoreWindowSticks(s: State, w: nat, now: int, env: Env, origin: Backend)
    requires Restoring(s, origin) && Traced(s, env) && WellFormed(origin, env) && s.workers.Keys == {w}
    requires s.workers[w].RestoreCommit? && !s.journal.value.restore.content && Clashes(s)
    ensures RestoreStuck(Step(s, Work(w, Crash, now), env), env, origin)
  {
    RestoringStep(s, Work(w, Crash, now), env, origin);
    StepKeepsTraced(s, Work(w, Crash, now), env, origin);
    assert Step(s, Work(w, Crash, now), env).workers.Keys == {};
  }

  // ------------------------------------------------------------------ when a restored state lasts

  /** Whole stores after a success: what a finished restore leaves. */
  ghost predicate Whole(s: State, env: Env, origin: Backend)
  {
    && Inv(s, origin) && Traced(s, env) && s.journal.Some? && s.journal.value.state.Succeeded?
    && UpToStamp(s.backend, origin, s.journal.value.uri, env)
  }

  ghost predicate NoneHarmful(s: State, origin: Backend)
  {
    forall x :: x in s.workers && !s.workers[x].Restorer() ==> !Harmful(s.workers[x], origin)
  }

  /** A restore await takes nothing away. */
  lemma RestoreGrows(s: State, w: nat, fate: Fate, now: int, env: Env)
    requires w in s.workers && s.workers[w].Restorer()
    ensures Grows(s.backend, RestoreStep(s, w, s.workers[w], fate, now, env).backend)
  {
  }

  /** Stores that are within the manifest and miss nothing are the original ones, but for the entry itself. */
  lemma NothingMissing(b: Backend, origin: Backend, uri: Uri, m: Manifest)
    requires Exact(m, origin, uri) && Within(b, origin, uri, m) && Grows(origin, b)
    ensures uri in b.content && b.(content := b.content[uri := origin.content[uri]]) == origin
  {
    forall h | h in Hashes(m.blobs) ensures h in origin.blobs {
      var i :| 0 <= i < |m.blobs| && m.blobs[i].0.hash == h;
    }
    WholeAgain(b, origin, uri, m);
  }

  /** Whole stores hold everything the original ones did. */
  lemma WholeGrows(b: Backend, origin: Backend, uri: Uri, env: Env)
    requires UpToStamp(b, origin, uri, env)
    ensures Grows(origin, b) && b.vectors == origin.vectors && b.edges == origin.edges && b.blobs == origin.blobs
  {
    assert b.content[uri := origin.content[uri]].Keys == b.content.Keys;
  }

  lemma WholeStep(s: State, a: Action, env: Env, origin: Backend)
    requires Whole(s, env, origin) && NoneHarmful(s, origin) && WellFormed(origin, env)
    ensures Whole(Step(s, a, env), env, origin) && NoneHarmful(Step(s, a, env), origin)
    ensures Step(s, a, env).journal.value.uri == s.journal.value.uri
  {
    var t := Step(s, a, env);
    StepKeeps(s, a, env, origin);
    StepKeepsTraced(s, a, env, origin);
    JournalOnlyAdvances(s, a, env, origin);
    if a.Work? && a.worker in s.workers {
      var k := s.workers[a.worker];
      assert WorkerOk(k, s.journal.value, s.cold, s.backend, origin);
      WorkShape(s, a.worker, a.fate, a.now, env);
      if !k.Restorer() {
        StaleStep(s, a.worker, a.fate, a.now, env, origin);
      } else if !a.fate.Crash? {
        RestoreGrows(s, a.worker, a.fate, a.now, env);
        WholeGrows(s.backend, origin, s.journal.value.uri, env);
        NothingMissing(t.backend, origin, t.journal.value.uri, t.cold.value);
      }
      forall x | x in t.workers && x != a.worker ensures x in s.workers && t.workers[x] == s.workers[x] {
        assert x in t.workers - {a.worker};
      }
    }
  }

  lemma {:induction false} WholeStays(s: State, acts: seq<Action>, env: Env, origin: Backend)
    requires Whole(s, env, origin) && NoneHarmful(s, origin) && WellFormed(origin, env)
    ensures UpToStamp(Run(s, acts, env).backend, origin, s.journal.value.uri, env)
    decreases |acts|
  {
    if acts != [] {
      WholeStep(s, acts[0], env, origin);
      WholeStays(Step(s, acts[0], env), acts[1..], env, origin);
    }
  }

  /** A harmful executor undoes a finished restore with at most two awaits of its own. */
  lemma StaleWorkerUndoesRestore(s: State, w: nat, env: Env, origin: Backend) returns (acts: seq<Action>)
    requires Whole(s, env, origin) && WellFormed(origin, env)
    requires w in s.workers && !s.workers[w].Restorer() && Harmful(s.workers[w], origin)
    ensures |acts| <= 2 && !UpToStamp(Run(s, acts, env).backend, origin, s.journal.value.uri, env)
  {
    var k := s.workers[w];
    var a := Work(w, Fine, 0);
    var t := Step(s, a, env);
    assert WorkerOk(k, s.journal.value, s.cold, s.backend, origin);
    WholeGrows(s.backend, origin, s.journal.value.uri, env);
    StepKeeps(s, a, env, origin);
    if k.RemovingEdges? || k.DeletingBlobs? {
      ErasesItem(s, w, env, origin);
      acts := [a];
    } else if !k.job.checkpoint.vector || (k.job.checkpoint.graph && !k.job.checkpoint.content) {
      ErasesEntry(s, w, env, origin);
      acts := [a];
    } else {
      StartsErasing(s, w, env, origin);
      ErasesItem(t, w, env, origin);
      acts := [a, a];
      assert acts[1..] == [a];
    }
  }

  /** `b` lacks something `origin` held. */
  ghost predicate Lacks(b: Backend, origin: Backend)
  {
    !(origin.content.Keys <= b.content.Keys) || b.vectors != origin.vectors || b.edges != origin.edges
    || b.blobs != origin.blobs
  }

  lemma LackingIsNotWhole(b: Backend, origin: Backend, uri: Uri, env: Env)
    requires Lacks(b, origin)
    ensures !UpToStamp(b, origin, uri, env)
  {
    if UpToStamp(b, origin, uri, env) { WholeGrows(b, origin, uri, env); }
  }

  lemma ErasesEntry(s: State, w: nat, env: Env, origin: Backend)
    requires Whole(s, env, origin) && w in s.workers && s.workers[w].Phase? && Harmful(s.workers[w], origin)
    requires var cp := s.workers[w].job.checkpoint; !cp.vector || (cp.graph && !cp.content)
    ensures !UpToStamp(Run(s, [Work(w, Fine, 0)], env).backend, origin, s.journal.value.uri, env)
  {
    var k := s.workers[w];
    var t := Step(s, Work(w, Fine, 0), env);
    assert WorkerOk(k, s.journal.value, s.cold, s.backend, origin);
    assert Run(s, [Work(w, Fine, 0)], env) == t;
    var uri := s.journal.value.uri;
    assert if !k.job.checkpoint.vector then uri !in t.backend.vectors else uri !in t.backend.content;
    LackingIsNotWhole(t.backend, origin, uri, env);
  }

  lemma ErasesItem(s: State, w: nat, env: Env, origin: Backend)
    requires Inv(s, origin) && s.journal.Some? && w in s.workers
    requires s.backend.edges == origin.edges && s.backend.blobs == origin.blobs
    requires (s.workers[w].RemovingEdges? && s.workers[w].todo != [])
             || (s.workers[w].DeletingBlobs? && s.workers[w].doomed != [])
    ensures !UpToStamp(Run(s, [Work(w, Fine, 0)], env).backend, origin, s.journal.value.uri, env)
  {
    var k := s.workers[w];
    var m := s.cold.value;
    var t := Step(s, Work(w, Fine, 0), env);
    assert WorkerOk(k, s.journal.value, s.cold, s.backend, origin);
    assert Run(s, [Work(w, Fine, 0)], env) == t;
    if k.RemovingEdges? {
      assert k.todo[0] in Elements(m.edges);
      assert k.todo[0] in origin.edges && k.todo[0] !in RemovePair(origin.edges, k.todo[0]);
    } else {
      var h := k.doomed[0].0.hash;
      assert h in Hashes(k.doomed);
      var i :| 0 <= i < |m.blobs| && m.blobs[i].0.hash == h;
      assert h in origin.blobs && h !in origin.blobs - {h};
    }
    LackingIsNotWhole(t.backend, origin, s.journal.value.uri, env);
  }

  lemma StartsErasing(s: State, w: nat, env: Env, origin: Backend)
    requires Whole(s, env, origin) && w in s.workers && s.workers[w].Phase? && Harmful(s.workers[w], origin)
    requires var cp := s.workers[w].job.checkpoint; cp.vector && (cp.graph ==> cp.content)
    ensures var t := Step(s, Work(w, Fine, 0), env);
            && w in t.workers && t.journal == s.journal && t.backend == s.backend
            && ((t.workers[w].RemovingEdges? && t.workers[w].todo != [])
                || (t.workers[w].DeletingBlobs? && t.workers[w].doomed != []))
  {
    var k := s.workers[w];
    var uri, m := s.journal.value.uri, s.cold.value;
    assert WorkerOk(k, s.journal.value, s.cold, s.backend, origin);
    assert Touching(origin.edges, uri) == Elements(m.edges);
    assert m.edges == [] ==> Elements(m.edges) == {};
    assert |m.blobs| == |CollectBlobs(origin.content[uri].payload)|;
  }

  /** Restored stores stay whole through every continuation if and only if no executor alive is harmful. */
  lemma RestoredLastsIff(s: State, env: Env, origin: Backend)
    requires Whole(s, env, origin) && WellFormed(origin, env)
    ensures (forall acts :: UpToStamp(Run(s, acts, env).backend, origin, s.journal.value.uri, env))
            <==> NoneHarmful(s, origin)
  {
    var uri := s.journal.value.uri;
    if NoneHarmful(s, origin) {
      forall acts ensures UpToStamp(Run(s, acts, env).backend, origin, uri, env) { WholeStays(s, acts, env, origin); }
    } else {
      var x :| x in s.workers && !s.workers[x].Restorer() && Harmful(s.workers[x], origin);
      var acts := StaleWorkerUndoesRestore(s, x, env, origin);
    }
  }
}
