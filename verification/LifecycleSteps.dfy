/**
  Single awaits spelled out: what a fault does to a worker and to the stores, what a journal
  update writes, what an erasure leaves, and what a job and its key say.
*/
module LifecycleSteps {
  import opened Prelude
  import opened LifecycleModel
  import opened LifecycleResume
  import opened LifecycleExecutor

  // ------------------------------------------------------------------ faults

  /** The worker stands before a call to a store or to the journal. */
  predicate Calls(k: Worker)
  {
    && (k.RemovingEdges? ==> k.todo != []) && (k.DeletingBlobs? ==> k.doomed != [])
    && (k.RestoreBlobs? ==> k.done < |k.m.blobs|) && (k.RestoreEdges? ==> k.done < |k.m.edges|)
    && (k.RestorePhase? ==>
          && k.job.restore.blobs && (k.job.restore.content ==> k.job.restore.graph)
          && (k.job.restore.content && k.job.restore.graph && !k.job.restore.vector ==> k.m.vector.Some?))
  }

  predicate Complete(f: Flags) { f.manifest && f.vector && f.graph && f.content && f.blobs }

  /** The call that begins an attempt, and the two that end one. */
  predicate AtEitherEnd(k: Worker) { k.Claimed? || k.Failing? || (k.Phase? && Complete(k.job.checkpoint)) }

  /**
    A fault sends an executor to record its failure, and drops a restore; what begins or ends an
    attempt ends it at once.
  */
  lemma FaultEndsAttempt(s: State, w: nat, fate: Fate, now: int, env: Env)
    requires w in s.workers && Calls(s.workers[w]) && (fate.Failed? || fate.AppliedButFailed? || fate.RevisionOnly?)
    ensures var k, t := s.workers[w], Step(s, Work(w, fate, now), env);
            if k.Restorer() || AtEitherEnd(k) then t.workers == s.workers - {w}
            else
              && w in t.workers && t.workers == s.workers[w := t.workers[w]] && t.workers[w].Failing?
              && t.workers[w].job == k.job.(revision := t.workers[w].job.revision)
              && (fate.Failed? || !k.Commit? ==> t.workers[w].job == k.job)
  {
  }

  /** A crash leaves everything durable as it is. */
  lemma CrashTouchesNothing(s: State, w: nat, now: int, env: Env)
    ensures Step(s, Work(w, Crash, now), env) == s.(workers := s.workers - {w})
  {
    if w !in s.workers { assert s.workers - {w} == s.workers; }
  }

  predicate SameStores(s: State, t: State) { s.journal == t.journal && s.cold == t.cold && s.backend == t.backend }

  /** A call that failed outright did nothing durable. */
  lemma FailedDidNothing(s: State, w: nat, now: int, env: Env)
    ensures SameStores(Step(s, Work(w, Failed, now), env), s)
  {
  }

  /** A call that took effect and then failed did what a fine one does. */
  lemma AppliedDidAll(s: State, w: nat, now: int, env: Env)
    ensures SameStores(Step(s, Work(w, AppliedButFailed, now), env), Step(s, Work(w, Fine, now), env))
  {
    if w in s.workers && s.workers[w].Restorer() { AppliedRestore(s, w, now, env); }
  }

  lemma AppliedRestore(s: State, w: nat, now: int, env: Env)
    requires w in s.workers && s.workers[w].Restorer()
    ensures SameStores(RestoreStep(s, w, s.workers[w], AppliedButFailed, now, env),
                       RestoreStep(s, w, s.workers[w], Fine, now, env))
  {
  }

  // ------------------------------------------------------------------ erasing

  /** The vector goes first of the live stores, alone. */
  lemma VectorGoes(s: State, w: nat, now: int, env: Env)
    requires w in s.workers && s.workers[w].Phase?
    requires s.workers[w].job.checkpoint.manifest && !s.workers[w].job.checkpoint.vector
    ensures var j, t := s.workers[w].job, Step(s, Work(w, Fine, now), env);
            && (forall u :: u in t.backend.vectors <==> u in s.backend.vectors && u != j.uri)
            && (forall u :: u in t.backend.vectors ==> t.backend.vectors[u] == s.backend.vectors[u])
            && t.backend.content == s.backend.content && t.backend.edges == s.backend.edges
            && t.backend.blobs == s.backend.blobs && t.journal == s.journal && t.cold == s.cold
            && t.workers == s.workers[w := Commit(j.(checkpoint := j.checkpoint.(vector := true)))]
  {
  }

  /** Removing one edge of the manifest removes every kind of it, and no edge between other ends. */
  lemma PairGoes(s: State, w: nat, now: int, env: Env)
    requires w in s.workers && s.workers[w].RemovingEdges? && s.workers[w].todo != []
    ensures var k, t := s.workers[w], Step(s, Work(w, Fine, now), env);
            && (forall e :: e in t.backend.edges <==>
                  e in s.backend.edges && (e.from != k.todo[0].from || e.to != k.todo[0].to))
            && t.backend.content == s.backend.content && t.backend.vectors == s.backend.vectors
            && t.backend.blobs == s.backend.blobs && t.journal == s.journal && t.cold == s.cold
            && t.workers == s.workers[w := if |k.todo| > 1 then RemovingEdges(k.job, k.todo[1..])
                                           else Commit(k.job.(checkpoint := k.job.checkpoint.(graph := true)))]
  {
  }

  /** The content entry goes alone; a strict store refuses to delete one that is not there. */
  lemma EntryGoes(s: State, w: nat, now: int, env: Env)
    requires w in s.workers && s.workers[w].Phase?
    requires var f := s.workers[w].job.checkpoint; f.manifest && f.vector && f.graph && !f.content
    ensures var j, t := s.workers[w].job, Step(s, Work(w, Fine, now), env);
            && (forall u :: u in t.backend.content <==> u in s.backend.content && u != j.uri)
            && (forall u :: u in t.backend.content ==> t.backend.content[u] == s.backend.content[u])
            && t.backend.vectors == s.backend.vectors && t.backend.edges == s.backend.edges
            && t.backend.blobs == s.backend.blobs && t.journal == s.journal && t.cold == s.cold
            && t.workers == s.workers[w := if env.strict && j.uri !in s.backend.content then Failing(j)
                                           else Commit(j.(checkpoint := j.checkpoint.(content := true)))]
  {
    if s.workers[w].job.uri !in s.backend.content {
      assert s.backend.content - {s.workers[w].job.uri} == s.backend.content;
    }
  }

  /** An erased URI: no entry, no vector, no edge at either end, none of its blobs; all else is as before. */
  lemma ErasedIs(origin: Backend, uri: Uri)
    requires uri in origin.content
    ensures var b := Erased(origin, uri);
            && (forall u :: u in b.content <==> u in origin.content && u != uri)
            && (forall u :: u in b.content ==> b.content[u] == origin.content[u])
            && (forall u :: u in b.vectors <==> u in origin.vectors && u != uri)
            && (forall u :: u in b.vectors ==> b.vectors[u] == origin.vectors[u])
            && (forall e :: e in b.edges <==> e in origin.edges && e.from != uri && e.to != uri)
            && (forall h :: h in b.blobs <==> h in origin.blobs && !Names(origin.content[uri].payload, h))
            && (forall h :: h in b.blobs ==> b.blobs[h] == origin.blobs[h])
  {
    var p := origin.content[uri].payload;
    forall h ensures Names(p, h) <==> exists r :: r in CollectBlobs(p) && r.hash == h {
      forall r ensures r in CollectBlobs(p) <==> Mentions(p, r) { CollectsExactly(p, r); }
    }
  }

  /** A payload mentions a blob of this hash. */
  ghost predicate Names(p: Payload, h: Hash) { exists r :: Mentions(p, r) && r.hash == h }

  /**
    A restored blob is filed under its own digest; one that does not have the digest of its reference
    ends the restore.
  */
  lemma RestoredBlobIsChecked(s: State, w: nat, now: int, env: Env)
    requires w in s.workers && s.workers[w].RestoreBlobs? && s.workers[w].done < |s.workers[w].m.blobs|
    ensures var k, t := s.workers[w], Step(s, Work(w, Fine, now), env);
            var (r, data) := k.m.blobs[k.done];
            && t.backend == s.backend.(blobs := s.backend.blobs[env.digest(data) := data])
            && (w in t.workers <==> env.digest(data) == r.hash)
            && t.journal == s.journal && t.cold == s.cold
  {
  }

  /** A restore leaves an entry that is there already alone, and goes on exactly if it is the manifest's. */
  lemma PresentEntryIsKept(s: State, w: nat, now: int, env: Env)
    requires w in s.workers && s.workers[w].RestorePhase? && s.workers[w].job.restore.blobs
    requires !s.workers[w].job.restore.content && s.workers[w].m.entry.uri in s.backend.content
    ensures var k, t := s.workers[w], Step(s, Work(w, Fine, now), env);
            && t.backend == s.backend && t.journal == s.journal && t.cold == s.cold
            && (w in t.workers <==> s.backend.content[k.m.entry.uri] == k.m.entry)
            && (w in t.workers ==>
                  t.workers[w] == RestoreCommit(k.job.(restore := k.job.restore.(content := true)), k.m))
  {
  }

  /** Only a job that has succeeded and has a manifest can be restored. */
  lemma RestoreBeginsIff(s: State, w: nat, env: Env)
    requires w !in s.workers
    ensures var t := Step(s, BeginRestore(w), env);
            if s.journal.Some? && s.journal.value.state.Succeeded? && s.cold.Some? then
              t == s.(workers := s.workers[w := RestorePhase(s.journal.value, s.cold.value)])
            else t == s
  {
  }

  // ------------------------------------------------------------------ records

  /**
    An update is written exactly if the record has the copy's revision; the file and the copy then are
    one revision on.
  */
  lemma SaveIs(d: Job, j: Job)
    ensures Save(Some(d), j, Fine) ==
            if d.revision == j.revision then
              Saved(Some(j.(revision := j.revision + 1)), j.(revision := j.revision + 1), true)
            else Saved(Some(d), j, false)
    ensures Save(Some(d), j, RevisionOnly) ==
            if d.revision == j.revision then Saved(Some(d), j.(revision := j.revision + 1), false)
            else Saved(Some(d), j, false)
    ensures forall fate :: Save(None, j, fate) == Saved(None, j, false)
  {
  }

  /** The last update of an attempt that has erased everything. */
  lemma SuccessIsRecorded(s: State, w: nat, now: int, env: Env)
    requires s.journal.Some? && w in s.workers && s.workers[w].Phase? && Complete(s.workers[w].job.checkpoint)
             && s.workers[w].job.revision == s.journal.value.revision
    ensures var j, t := s.workers[w].job, Step(s, Work(w, Fine, now), env);
            && t.journal == Some(Job(j.id, j.uri, Succeeded, j.attempts, j.maxAttempts, j.nextAttemptAt, j.checkpoint,
                                     j.revision + 1, None, None, j.restore))
            && t.workers == s.workers - {w} && t.cold == s.cold && t.backend == s.backend
  {
  }

  // ------------------------------------------------------------------ keys

  function Letter(o: Operation): char
  {
    match o
    case ArchiveOperation => 'v'
    case DeleteOperation => 't'
    case ColdStorageOperation => 'g'
  }

  lemma KeyIs(uri: Uri, o: Operation)
    ensures var k := KeyOf(uri, o);
            && |uri| < |k| && k[|k| - 2] == Letter(o) && uri <= k
            && |k| - |uri| == (match o case ArchiveOperation => 8 case DeleteOperation => 7
              case ColdStorageOperation => 12)
  {
  }

  /** Jobs of different URIs, or of different operations, never share a key. */
  lemma KeysAreApart(u: Uri, a: Operation, v: Uri, b: Operation)
    requires KeyOf(u, a) == KeyOf(v, b)
    ensures u == v && a == b
  {
    KeyIs(u, a);
    KeyIs(v, b);
    var k := KeyOf(u, a);
    assert u == k[..|u|] && v == k[..|v|];
  }

  /** Three actions have a destructive execution: archiving, deleting, and a downgrade below the last level. */
  lemma SupportedIff(action: LifecycleAction)
    ensures OperationOf(action).Some? <==>
            action == Archive || action == Delete || action == Downgrade(L0) || action == Downgrade(L1)
    ensures OperationOf(Archive) == Some(ArchiveOperation) && OperationOf(Delete) == Some(DeleteOperation)
    ensures OperationOf(Downgrade(L0)) == OperationOf(Downgrade(L1)) == Some(ColdStorageOperation)
  {
  }

  /** Submitting files a pending job without lease or checkpoint, unless there is one already. */
  lemma SubmittedIs(s: State, id: nat, uri: Uri, now: int, env: Env)
    ensures Step(s, Action.Submit(id, uri, now), env) ==
            if s.journal.Some? then s
            else
              var none := Flags(false, false, false, false, false);
              s.(journal := Some(Job(id, uri, Pending, 0, 5, now, none, 0, None, None, none)))
  {
  }
}
