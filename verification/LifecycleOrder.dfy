/**
  The phases seen from the stores: until the graph checkpoint is durable no entry is missing,
  and until the content checkpoint is durable no blob is, whoever holds the lease.
*/
module LifecycleOrder {
  import opened Prelude
  import opened LifecycleModel
  import opened LifecycleSafety
  import opened LifecycleFencing

  /** An executor that is not about to store, or give up on, a checkpoint of its own. */
  predicate Settled(k: Worker) { !k.Restorer() && !k.Commit? && !k.Failing? }

  /** A settled executor carries durable checkpoints only. */
  ghost predicate CarriesDurable(k: Worker, d: Job) { Settled(k) ==> Implied(k.job.checkpoint, d.checkpoint) }

  ghost predicate Untouched(d: Job, b: Backend, origin: Backend)
  {
    && (!d.checkpoint.graph ==> b.content == origin.content)
    && (!d.checkpoint.content ==> b.blobs == origin.blobs)
  }

  ghost predicate Backed(s: State, origin: Backend)
  {
    s.journal.Some? ==>
      && Untouched(s.journal.value, s.backend, origin)
      && forall x :: x in s.workers ==> CarriesDurable(s.workers[x], s.journal.value)
  }

  /** What one await of `w` must not break. */
  ghost predicate StaysBacked(s: State, w: nat, t: State)
    requires s.journal.Some? && t.journal.Some?
  {
    var d := s.journal.value;
    && (w in t.workers ==> CarriesDurable(t.workers[w], t.journal.value))
    && (t.backend.content == s.backend.content || d.checkpoint.graph)
    && (t.backend.blobs == s.backend.blobs || d.checkpoint.content)
  }

  lemma PhaseBacked(s: State, w: nat, fate: Fate, env: Env)
    requires w in s.workers && s.workers[w].Phase? && s.journal.Some? && CarriesDurable(s.workers[w], s.journal.value)
    requires Ordered(s.workers[w].job.checkpoint)
    ensures var t := PhaseStep(s, w, s.workers[w].job, fate, env); t.journal.Some? && StaysBacked(s, w, t)
  {
  }

  lemma RemovalBacked(s: State, w: nat, fate: Fate)
    requires w in s.workers && s.journal.Some? && CarriesDurable(s.workers[w], s.journal.value)
    requires s.workers[w].RemovingEdges? || (s.workers[w].DeletingBlobs? && s.workers[w].job.checkpoint.content)
    ensures var t := RemovalStep(s, w, s.workers[w], fate); t.journal.Some? && StaysBacked(s, w, t)
  {
  }

  lemma SnapshotBacked(s: State, w: nat, fate: Fate, now: int, env: Env)
    requires w in s.workers && s.journal.Some? && CarriesDurable(s.workers[w], s.journal.value)
    requires s.workers[w].HasEntry? || s.workers[w].HasEdges? || s.workers[w].HasAll?
    ensures var t := SnapshotStep(s, w, s.workers[w], fate, now, env); t.journal.Some? && StaysBacked(s, w, t)
  {
  }

  lemma JournalBacked(s: State, w: nat, fate: Fate, now: int)
    requires w in s.workers && s.journal.Some?
    requires s.workers[w].Claimed? || s.workers[w].Commit? || s.workers[w].Failing?
    ensures var t := JournalStep(s, w, s.workers[w], fate, now); t.journal.Some? && StaysBacked(s, w, t)
  {
  }

  lemma RestoreBacked(s: State, w: nat, fate: Fate, now: int, env: Env)
    requires w in s.workers && s.workers[w].Restorer() && s.journal.Some? && s.journal.value.checkpoint == ALL_FLAGS
    ensures var t := RestoreStep(s, w, s.workers[w], fate, now, env); t.journal.Some? && StaysBacked(s, w, t)
  {
    RestoreShape(s, w, fate, now, env);
  }

  lemma WorkBacked(s: State, w: nat, fate: Fate, now: int, env: Env, origin: Backend)
    requires Inv(s, origin) && s.journal.Some? && w in s.workers && CarriesDurable(s.workers[w], s.journal.value)
    ensures var t := WorkStep(s, w, fate, now, env); t.journal.Some? && StaysBacked(s, w, t)
  {
    var k := s.workers[w];
    assert WorkerOk(k, s.journal.value, s.cold, s.backend, origin);
    if fate.Crash? {
    } else if k.Restorer() {
      RestoreBacked(s, w, fate, now, env);
    } else if k.Phase? {
      PhaseBacked(s, w, fate, env);
    } else if k.HasEntry? || k.HasEdges? || k.HasAll? {
      SnapshotBacked(s, w, fate, now, env);
    } else if k.RemovingEdges? || k.DeletingBlobs? {
      RemovalBacked(s, w, fate);
    } else {
      JournalBacked(s, w, fate, now);
    }
  }

  lemma StepKeepsBacked(s: State, a: Action, env: Env, origin: Backend)
    requires Inv(s, origin) && Backed(s, origin) && WellFormed(origin, env)
    ensures Backed(Step(s, a, env), origin)
  {
    var t := Step(s, a, env);
    if s.journal.Some? {
      JournalOnlyAdvances(s, a, env, origin);
      if a.Work? && a.worker in s.workers {
        WorkBacked(s, a.worker, a.fate, a.now, env, origin);
        WorkShape(s, a.worker, a.fate, a.now, env);
        forall x | x in t.workers ensures CarriesDurable(t.workers[x], t.journal.value) {
          if x != a.worker {
            assert x in t.workers - {a.worker};
            assert CarriesDurable(s.workers[x], s.journal.value);
          }
        }
      }
    }
  }

  /** Over any run from the beginning. */
  lemma {:induction false} RunKeepsBacked(s: State, acts: seq<Action>, env: Env, origin: Backend)
    requires Inv(s, origin) && Backed(s, origin) && WellFormed(origin, env)
    ensures Inv(Run(s, acts, env), origin) && Backed(Run(s, acts, env), origin)
    decreases |acts|
  {
    if acts != [] {
      StepKeeps(s, acts[0], env, origin);
      StepKeepsBacked(s, acts[0], env, origin);
      RunKeepsBacked(Step(s, acts[0], env), acts[1..], env, origin);
    }
  }

  /** In every reachable state: entries go only after the graph checkpoint, blobs only after the content checkpoint. */
  lemma ErasedInOrder(origin: Backend, acts: seq<Action>, env: Env)
    requires WellFormed(origin, env)
    ensures var s := Run(Start(origin), acts, env);
            Inv(s, origin) && (s.journal.Some? ==> Untouched(s.journal.value, s.backend, origin))
  {
    RunKeepsBacked(Start(origin), acts, env, origin);
  }

  /**
    A content store that drops an entry's edges together with the entry finds none to drop: when a
    worker deletes the entry of a job that has not succeeded, its edges are gone.
  */
  lemma NoEdgesLeft(origin: Backend, acts: seq<Action>, w: nat, env: Env)
    requires WellFormed(origin, env)
    requires var s := Run(Start(origin), acts, env);
             && s.journal.Some? && !s.journal.value.state.Succeeded? && w in s.workers && s.workers[w].Phase?
             && s.workers[w].job.checkpoint.graph
    ensures var s := Run(Start(origin), acts, env); Touching(s.backend.edges, s.workers[w].job.uri) == {}
  {
    RunKeeps(Start(origin), acts, env, origin);
    var s := Run(Start(origin), acts, env);
    assert WorkerOk(s.workers[w], s.journal.value, s.cold, s.backend, origin);
  }
}
