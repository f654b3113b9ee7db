/**
  What restores make of the entry: a store stamps what it is handed, so an entry that was
  written back is the snapshot or a stamp of it.  The checkpoints of a restore come in order.
*/
module LifecycleStamps {
  import opened Prelude
  import opened LifecycleModel
  import opened LifecycleSafety
  import opened LifecycleFencing

  /** What writing `snapshot` can leave, over whatever was there and at whatever time. */
  ghost predicate Rewritten(e: Entry, snapshot: Entry, env: Env)
  {
    e == snapshot || exists before, now :: e == env.stamp(before, snapshot, now)
  }

  /** A store that keeps an entry as it is handed over. */
  ghost predicate Verbatim(env: Env) { forall before, e, now :: env.stamp(before, e, now) == e }

  /** The stores of SQL stamp so. */
  ghost predicate StampsLikeSql(env: Env, redact: Entry -> Entry)
  {
    forall before, e, now :: env.stamp(before, e, now) == SqlStamp(redact, before, e, now)
  }

  /** A stamp of SQL gives the snapshot back only at the very time of its last write and at its very version. */
  lemma SqlStampMatches(redact: Entry -> Entry, before: Option<Entry>, e: Entry, now: int)
    ensures SqlStamp(redact, before, e, now) == e <==>
              && redact(e).(updatedAt := e.updatedAt, version := e.version) == e && now == e.updatedAt
              && e.version == if before.None? then 1 else before.value.version + 1
  {
  }

  /** The stores of `origin`, but for a stamp on the entry. */
  ghost predicate UpToStamp(b: Backend, origin: Backend, uri: Uri, env: Env)
  {
    && uri in origin.content && uri in b.content && Rewritten(b.content[uri], origin.content[uri], env)
    && b.(content := b.content[uri := origin.content[uri]]) == origin
  }

  /** A store that writes verbatim gives back the stores themselves. */
  lemma VerbatimIsExact(b: Backend, origin: Backend, uri: Uri, env: Env)
    requires UpToStamp(b, origin, uri, env) && Verbatim(env)
    ensures b == origin
  {
    assert b.content[uri := b.content[uri]] == b.content;
  }

  // ------------------------------------------------------------------ an invariant of all runs

  predicate OrderedBack(f: Flags)
  {
    (f.content ==> f.blobs) && (f.graph ==> f.content) && (f.vector ==> f.graph)
  }

  /** A restore goes through its phases in order, and carries nothing undurable except to its next checkpoint. */
  predicate InStep(k: Worker, d: Job)
  {
    k.Restorer() ==>
      && OrderedBack(k.job.restore)
      && (!k.RestoreCommit? ==> Implied(k.job.restore, d.restore))
      && (k.RestoreWrite? ==> k.job.restore.blobs)
      && (k.RestoreEdges? ==> k.job.restore.content)
  }

  /** An entry found after success was written back, and by then the blobs were checkpointed. */
  ghost predicate WrittenBack(d: Job, cold: Option<Manifest>, b: Backend, env: Env)
  {
    d.state.Succeeded? && d.uri in b.content ==>
      cold.Some? && d.restore.blobs && Rewritten(b.content[d.uri], cold.value.entry, env)
  }

  ghost predicate Traced(s: State, env: Env)
  {
    s.journal.Some? ==>
      var d := s.journal.value;
      && OrderedBack(d.restore) && WrittenBack(d, s.cold, s.backend, env)
      && forall x :: x in s.workers ==> InStep(s.workers[x], d)
  }

  /** What one await of `w` must not break. */
  ghost predicate StaysTraced(s: State, w: nat, t: State, env: Env)
    requires s.journal.Some? && t.journal.Some?
  {
    var d := t.journal.value;
    && OrderedBack(d.restore) && Implied(s.journal.value.restore, d.restore) && WrittenBack(d, t.cold, t.backend, env)
    && (w in t.workers ==> InStep(t.workers[w], d))
  }

  /** An executor writes no entry. */
  lemma ExecutorWrites(s: State, w: nat, fate: Fate, now: int, env: Env)
    requires w in s.workers && !s.workers[w].Restorer()
    ensures var t := WorkStep(s, w, fate, now, env);
            t.backend.content == s.backend.content || t.backend.content == s.backend.content - {s.workers[w].job.uri}
  {
  }

  lemma ExecutorTraced(s: State, w: nat, fate: Fate, now: int, env: Env, origin: Backend)
    requires Inv(s, origin) && s.journal.Some? && Traced(s, env) && w in s.workers && !s.workers[w].Restorer()
    ensures var t := WorkStep(s, w, fate, now, env); t.journal.Some? && StaysTraced(s, w, t, env)
  {
    assert WorkerOk(s.workers[w], s.journal.value, s.cold, s.backend, origin);
    WorkShape(s, w, fate, now, env);
    ExecutorWrites(s, w, fate, now, env);
    ExecutorRestores(s, w, fate, now, env, origin);
  }

  /** What it stores of a restore is what its own copy says. */
  lemma ExecutorStores(s: State, w: nat, fate: Fate, now: int, env: Env)
    requires w in s.workers && !s.workers[w].Restorer()
    ensures var t := WorkStep(s, w, fate, now, env);
            t.journal == s.journal || (t.journal.Some? && t.journal.value.restore == s.workers[w].job.restore)
  {
  }

  /** Nor does it restore: before it succeeds nothing is restored, and after that its copy is outdated. */
  lemma ExecutorRestores(s: State, w: nat, fate: Fate, now: int, env: Env, origin: Backend)
    requires Inv(s, origin) && s.journal.Some? && w in s.workers && !s.workers[w].Restorer()
    ensures var t := WorkStep(s, w, fate, now, env);
            t.journal.Some? && t.journal.value.restore == s.journal.value.restore
  {
    var t := WorkStep(s, w, fate, now, env);
    ExecutorStores(s, w, fate, now, env);
    WorkShape(s, w, fate, now, env);
    if t.journal != s.journal { HolderRestores(s.workers[w], s.journal.value, s.cold, s.backend, origin); }
  }

  lemma HolderRestores(k: Worker, d: Job, cold: Option<Manifest>, b: Backend, origin: Backend)
    requires DurableOk(d, cold, b, origin) && WorkerOk(k, d, cold, b, origin) && Holds(k, d)
    ensures k.job.restore == d.restore == NO_FLAGS
  {
  }

  /** A restore await that leaves entry and record alone. */
  ghost predicate Aside(s: State, w: nat, t: State)
  {
    && t.journal == s.journal && t.cold == s.cold && t.backend.content == s.backend.content && s.journal.Some?
    && (w in t.workers ==> InStep(t.workers[w], s.journal.value))
  }

  lemma PhaseTraced(s: State, w: nat, fate: Fate, now: int, env: Env)
    requires s.journal.Some? && w in s.workers && s.workers[w].RestorePhase? && InStep(s.workers[w], s.journal.value)
    ensures Aside(s, w, RestoreStep(s, w, s.workers[w], fate, now, env))
  {
  }

  lemma WriteTraced(s: State, w: nat, fate: Fate, now: int, env: Env, origin: Backend)
    requires Inv(s, origin) && s.journal.Some? && Traced(s, env) && w in s.workers && s.workers[w].RestoreWrite?
    ensures var t := RestoreStep(s, w, s.workers[w], fate, now, env); t.journal.Some? && StaysTraced(s, w, t, env)
  {
    assert WorkerOk(s.workers[w], s.journal.value, s.cold, s.backend, origin);
    assert InStep(s.workers[w], s.journal.value);
  }

  lemma ItemsTraced(s: State, w: nat, fate: Fate, now: int, env: Env)
    requires s.journal.Some? && w in s.workers && InStep(s.workers[w], s.journal.value)
    requires s.workers[w].RestoreBlobs? || s.workers[w].RestoreEdges?
    ensures Aside(s, w, RestoreStep(s, w, s.workers[w], fate, now, env))
  {
  }

  lemma CommitTraced(s: State, w: nat, fate: Fate, now: int, env: Env, origin: Backend)
    requires Inv(s, origin) && s.journal.Some? && Traced(s, env) && w in s.workers && s.workers[w].RestoreCommit?
    ensures var t := RestoreStep(s, w, s.workers[w], fate, now, env); t.journal.Some? && StaysTraced(s, w, t, env)
  {
    assert WorkerOk(s.workers[w], s.journal.value, s.cold, s.backend, origin);
    assert InStep(s.workers[w], s.journal.value);
  }

  lemma WorkTraced(s: State, w: nat, fate: Fate, now: int, env: Env, origin: Backend)
    requires Inv(s, origin) && s.journal.Some? && Traced(s, env) && w in s.workers
    ensures var t := WorkStep(s, w, fate, now, env); t.journal.Some? && StaysTraced(s, w, t, env)
  {
    var k := s.workers[w];
    assert InStep(k, s.journal.value);
    if fate.Crash? {
    } else if !k.Restorer() {
      ExecutorTraced(s, w, fate, now, env, origin);
    } else if k.RestorePhase? {
      PhaseTraced(s, w, fate, now, env);
    } else if k.RestoreWrite? {
      WriteTraced(s, w, fate, now, env, origin);
    } else if k.RestoreCommit? {
      CommitTraced(s, w, fate, now, env, origin);
    } else {
      ItemsTraced(s, w, fate, now, env);
    }
  }

  lemma StepKeepsTraced(s: State, a: Action, env: Env, origin: Backend)
    requires Inv(s, origin) && Traced(s, env) && WellFormed(origin, env)
    ensures Traced(Step(s, a, env), env)
  {
    var t := Step(s, a, env);
    if s.journal.Some? {
      JournalOnlyAdvances(s, a, env, origin);
      if a.Work? && a.worker in s.workers {
        WorkTraced(s, a.worker, a.fate, a.now, env, origin);
        WorkShape(s, a.worker, a.fate, a.now, env);
        forall x | x in t.workers ensures InStep(t.workers[x], t.journal.value) {
          if x != a.worker {
            assert x in t.workers - {a.worker};
            assert InStep(s.workers[x], s.journal.value);
          }
        }
      }
    }
  }

  /** Over any run from the beginning. */
  lemma {:induction false} RunKeepsTraced(s: State, acts: seq<Action>, env: Env, origin: Backend)
    requires Inv(s, origin) && Traced(s, env) && WellFormed(origin, env)
    ensures Inv(Run(s, acts, env), origin) && Traced(Run(s, acts, env), env)
    decreases |acts|
  {
    if acts != [] {
      StepKeeps(s, acts[0], env, origin);
      StepKeepsTraced(s, acts[0], env, origin);
      RunKeepsTraced(Step(s, acts[0], env), acts[1..], env, origin);
    }
  }

  /**
    In every reachable state: before success the entry is as it was or gone, and after it an entry
    is the snapshot or a stamp of the snapshot.
  */
  lemma EntryIsTraced(origin: Backend, acts: seq<Action>, env: Env)
    requires WellFormed(origin, env)
    ensures var s := Run(Start(origin), acts, env);
            && Inv(s, origin) && Traced(s, env)
            && forall u :: u in s.backend.content ==>
                 u in origin.content && Rewritten(s.backend.content[u], origin.content[u], env)
  {
    RunKeepsTraced(Start(origin), acts, env, origin);
    var s := Run(Start(origin), acts, env);
    if s.cold.Some? {
      var uri := s.journal.value.uri;
      forall u | u in s.backend.content && u != uri
        ensures u in origin.content && s.backend.content[u] == origin.content[u]
      {
        assert u in s.backend.content - {uri};
        assert (s.backend.content - {uri})[u] == (origin.content - {uri})[u];
      }
    }
  }
}
