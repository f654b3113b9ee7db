/**
  Leases and attempts, spelled out: who may claim a job and when, what a claim writes, how far
  apart two claims are, and what becomes of an attempt that fails.
*/
module LifecycleLeases {
  import opened Prelude
  import opened LifecycleModel
  import opened LifecycleSafety
  import opened LifecycleFencing

  predicate Unfinished(d: Job) { d.state.Pending? || d.state.Running? || d.state.Retryable? }

  // ------------------------------------------------------------------ one claim

  /** As long as a lease runs, nobody's claim changes anything, the owner's own included. */
  lemma LeaseKeepsOut(s: State, w: nat, now: int, env: Env)
    requires s.journal.Some? && s.journal.value.leaseUntil.Some? && now < s.journal.value.leaseUntil.value
    ensures Step(s, Claim(w, now), env) == s
  {
  }

  /** A job that is due, unfinished and not under a running lease goes to whoever asks; any other goes to nobody. */
  lemma ClaimIsGrantedIff(s: State, w: nat, now: int, env: Env)
    requires w !in s.workers && s.journal.Some?
    ensures var d, t := s.journal.value, Step(s, Claim(w, now), env);
            if d.nextAttemptAt <= now && Unfinished(d) && (d.leaseUntil.None? || d.leaseUntil.value <= now) then
              var j := Job(d.id, d.uri, d.state, d.attempts, d.maxAttempts, d.nextAttemptAt, d.checkpoint,
                           d.revision + 1, Some(w), Some(now + 30), d.restore);
              t == State(Some(j), s.cold, s.backend, s.workers[w := Claimed(j)])
            else t == s
  {
  }

  // ------------------------------------------------------------------ leases over runs

  predicate SameLease(a: Job, b: Job) { a.leaseOwner == b.leaseOwner && a.leaseUntil == b.leaseUntil }

  predicate Released(d: Job)
  {
    d.leaseOwner.None? && d.leaseUntil.None? && (d.state.Succeeded? || d.state.Retryable? || d.state.PermanentlyFailed?)
  }

  /**
    Whoever holds the record's revision, and has not failed, carries the record's lease; an
    executor is its owner.
  */
  predicate Owned(k: Worker, w: nat, d: Job)
  {
    k.job.revision == d.revision && !k.Failing? ==>
      SameLease(k.job, d) && (!k.Restorer() ==> d.leaseOwner == Some(w) && d.leaseUntil.Some?)
  }

  ghost predicate Leased(s: State)
  {
    s.journal.Some? ==> forall x :: x in s.workers ==> Owned(s.workers[x], x, s.journal.value)
  }

  /** What an await of `w` does to the lease of the record and of its own copy. */
  predicate OwnLease(s: State, w: nat, t: State)
    requires w in s.workers
  {
    && (w in t.workers ==> SameLease(t.workers[w].job, s.workers[w].job))
    && (t.journal == s.journal || (t.journal.Some? && Stores(s.workers[w], t.journal.value)))
  }

  lemma JournalLease(s: State, w: nat, fate: Fate, now: int)
    requires w in s.workers && (s.workers[w].Claimed? || s.workers[w].Commit? || s.workers[w].Failing?)
    ensures OwnLease(s, w, JournalStep(s, w, s.workers[w], fate, now))
  {
  }

  lemma PhaseLease(s: State, w: nat, fate: Fate, env: Env)
    requires w in s.workers && s.workers[w].Phase?
    ensures OwnLease(s, w, PhaseStep(s, w, s.workers[w].job, fate, env))
  {
  }

  lemma ReadLease(s: State, w: nat, fate: Fate, now: int, env: Env)
    requires w in s.workers && (s.workers[w].HasEntry? || s.workers[w].HasEdges? || s.workers[w].HasAll?)
    ensures OwnLease(s, w, SnapshotStep(s, w, s.workers[w], fate, now, env))
  {
  }

  lemma RemovalLease(s: State, w: nat, fate: Fate)
    requires w in s.workers && (s.workers[w].RemovingEdges? || s.workers[w].DeletingBlobs?)
    ensures OwnLease(s, w, RemovalStep(s, w, s.workers[w], fate))
  {
  }

  lemma RestoreLease(s: State, w: nat, fate: Fate, now: int, env: Env)
    requires w in s.workers && s.workers[w].Restorer()
    ensures OwnLease(s, w, RestoreStep(s, w, s.workers[w], fate, now, env))
  {
  }

  /** An await changes no lease but by the last update of an attempt, which takes it off. */
  lemma AwaitLease(s: State, w: nat, fate: Fate, now: int, env: Env)
    requires w in s.workers
    ensures OwnLease(s, w, WorkStep(s, w, fate, now, env))
  {
    var k := s.workers[w];
    if fate.Crash? {
    } else if k.Restorer() {
      RestoreLease(s, w, fate, now, env);
    } else if k.Phase? {
      PhaseLease(s, w, fate, env);
    } else if k.HasEntry? || k.HasEdges? || k.HasAll? {
      ReadLease(s, w, fate, now, env);
    } else if k.RemovingEdges? || k.DeletingBlobs? {
      RemovalLease(s, w, fate);
    } else {
      JournalLease(s, w, fate, now);
    }
  }

  predicate Stores(k: Worker, d: Job)
  {
    if k.Failing? then Released(d) else SameLease(d, k.job) || (k.Phase? && Released(d))
  }

  /**
    What a step may do to a record: leave its lease, take it off as the last update, or renew it once
    it has run out.
  */
  predicate LeaseMoves(d: Job, e: Job, a: Action)
  {
    || SameLease(d, e)
    || Released(e)
    || (a.Claim? && e.leaseOwner == Some(a.worker) && e.leaseUntil == Some(a.now + 30)
        && (d.leaseUntil.Some? ==> d.leaseUntil.value <= a.now))
  }

  lemma OthersOwned(s: State, w: nat, t: State, origin: Backend)
    requires Inv(s, origin) && Leased(s) && w in s.workers && s.journal.Some? && t.journal.Some?
    requires t.workers - {w} == s.workers - {w}
    requires t.journal == s.journal || (t.journal.value.revision == s.journal.value.revision + 1
                                        && s.workers[w].job.revision == s.journal.value.revision)
    ensures forall x :: x in t.workers && x != w ==> Owned(t.workers[x], x, t.journal.value)
  {
    forall x | x in t.workers && x != w ensures Owned(t.workers[x], x, t.journal.value) {
      assert x in t.workers - {w};
      assert WorkerOk(s.workers[x], s.journal.value, s.cold, s.backend, origin);
      assert Owned(s.workers[x], x, s.journal.value);
    }
  }

  lemma WorkLeased(s: State, w: nat, fate: Fate, now: int, env: Env, origin: Backend)
    requires Inv(s, origin) && Leased(s) && w in s.workers && s.journal.Some?
    ensures var t := WorkStep(s, w, fate, now, env);
            && Leased(t) && t.journal.Some?
            && (SameLease(s.journal.value, t.journal.value) || Released(t.journal.value))
  {
    var t := WorkStep(s, w, fate, now, env);
    AwaitLease(s, w, fate, now, env);
    WorkShape(s, w, fate, now, env);
    OthersOwned(s, w, t, origin);
    SelfOwned(s, w, fate, now, env, origin);
  }

  lemma SelfOwned(s: State, w: nat, fate: Fate, now: int, env: Env, origin: Backend)
    requires Inv(s, origin) && w in s.workers && s.journal.Some? && Owned(s.workers[w], w, s.journal.value)
    requires OwnLease(s, w, WorkStep(s, w, fate, now, env))
    ensures var t := WorkStep(s, w, fate, now, env);
            && t.journal.Some? && (w in t.workers ==> Owned(t.workers[w], w, t.journal.value))
            && (SameLease(s.journal.value, t.journal.value) || Released(t.journal.value))
  {
    WorkShape(s, w, fate, now, env);
    LastStays(s, w, fate, now, env);
  }

  /** A worker that goes on has released nothing. */
  lemma LastStays(s: State, w: nat, fate: Fate, now: int, env: Env)
    requires w in s.workers
    ensures var k, t := s.workers[w], WorkStep(s, w, fate, now, env);
            w in t.workers && t.journal != s.journal && t.journal.Some? ==>
              SameLease(t.journal.value, k.job) && !k.Failing?
  {
  }

  lemma StepLeased(s: State, a: Action, env: Env, origin: Backend)
    requires Inv(s, origin) && Leased(s) && WellFormed(origin, env)
    ensures var t := Step(s, a, env);
            && Leased(t)
            && (s.journal.Some? ==> t.journal.Some? && LeaseMoves(s.journal.value, t.journal.value, a))
  {
    var t := Step(s, a, env);
    if s.journal.Some? {
      if a.Work? && a.worker in s.workers {
        WorkLeased(s, a.worker, a.fate, a.now, env, origin);
      } else if a.Claim? && t != s {
        forall x | x in t.workers ensures Owned(t.workers[x], x, t.journal.value) {
          if x != a.worker { assert WorkerOk(s.workers[x], s.journal.value, s.cold, s.backend, origin); }
        }
      }
    }
  }

  lemma {:induction false} RunLeased(s: State, acts: seq<Action>, env: Env, origin: Backend)
    requires Inv(s, origin) && Leased(s) && WellFormed(origin, env)
    ensures Inv(Run(s, acts, env), origin) && Leased(Run(s, acts, env))
    decreases |acts|
  {
    if acts != [] {
      StepKeeps(s, acts[0], env, origin);
      StepLeased(s, acts[0], env, origin);
      RunLeased(Step(s, acts[0], env), acts[1..], env, origin);
    }
  }

  /** In every state of the run the record is under a lease: no last update is made. */
  ghost predicate NeverReleased(s: State, acts: seq<Action>, env: Env)
    decreases |acts|
  {
    && s.journal.Some? && s.journal.value.leaseUntil.Some?
    && (acts != [] ==> NeverReleased(Step(s, acts[0], env), acts[1..], env))
  }

  lemma {:induction false} LeaseOnlyGrows(s: State, acts: seq<Action>, env: Env, origin: Backend)
    requires Inv(s, origin) && Leased(s) && WellFormed(origin, env) && NeverReleased(s, acts, env)
    ensures var t := Run(s, acts, env);
            t.journal.Some? && t.journal.value.leaseUntil.Some?
              && s.journal.value.leaseUntil.value <= t.journal.value.leaseUntil.value
    decreases |acts|
  {
    if acts != [] {
      StepKeeps(s, acts[0], env, origin);
      StepLeased(s, acts[0], env, origin);
      LeaseOnlyGrows(Step(s, acts[0], env), acts[1..], env, origin);
    }
  }

  /**
    Two claims of one job that are both granted, with no last update of an attempt between them,
    are at least thirty seconds apart, whatever else happens in between.
  */
  lemma ClaimsAreApart(origin: Backend, before: seq<Action>, v: nat, first: int, between: seq<Action>, w: nat,
    second: int, env: Env)
    requires WellFormed(origin, env)
    requires var s := Run(Start(origin), before, env);
             var t := Step(s, Claim(v, first), env);
             && t != s && NeverReleased(t, between, env)
             && Step(Run(t, between, env), Claim(w, second), env) != Run(t, between, env)
    ensures second >= first + 30
  {
    var s := Run(Start(origin), before, env);
    RunLeased(Start(origin), before, env, origin);
    var t := Step(s, Claim(v, first), env);
    StepKeeps(s, Claim(v, first), env, origin);
    StepLeased(s, Claim(v, first), env, origin);
    LeaseOnlyGrows(t, between, env, origin);
    if second < first + 30 { LeaseKeepsOut(Run(t, between, env), w, second, env); }
  }

  // ------------------------------------------------------------------ attempts

  /** Seconds until a job is due again after so many attempts. */
  function Backoff(attempts: nat): nat
  {
    if attempts == 0 then 1 else if attempts == 1 then 2 else if attempts == 2 then 4
    else if attempts == 3 then 8 else if attempts == 4 then 16 else if attempts == 5 then 32
    else if attempts == 6 then 64 else if attempts == 7 then 128 else if attempts == 8 then 256
    else if attempts == 9 then 512 else 1024
  }

  lemma BackoffIs(attempts: nat)
    ensures Pow2(if attempts < 10 then attempts else 10) == Backoff(attempts)
  {
    assert Pow2(2) == 4 && Pow2(4) == 16 && Pow2(6) == 64 && Pow2(8) == 256;
  }

  /**
    An attempt that fails below its maximum leaves the job retryable, unleased and due again after
    its backoff; at the maximum it leaves it permanently failed, and nobody ever claims it again.
  */
  lemma FailureIsRecorded(s: State, w: nat, now: int, env: Env)
    requires s.journal.Some? && w in s.workers && s.workers[w].Failing?
             && s.workers[w].job.revision == s.journal.value.revision
    ensures var j, t := s.workers[w].job, Step(s, Work(w, Fine, now), env);
            && t.journal == Some(Job(j.id, j.uri, if j.attempts < j.maxAttempts then Retryable else PermanentlyFailed,
                                     j.attempts, j.maxAttempts, now + Backoff(j.attempts), j.checkpoint,
                                     j.revision + 1, None, None, j.restore))
            && t.workers == s.workers - {w} && t.cold == s.cold && t.backend == s.backend
  {
    BackoffIs(s.workers[w].job.attempts);
  }

  /** Then it can be claimed exactly from that moment on, or never. */
  lemma RetryIsDueIff(s: State, w: nat, now: int, v: nat, later: int, env: Env)
    requires s.journal.Some? && w in s.workers && s.workers[w].Failing? && v !in s.workers
             && s.workers[w].job.revision == s.journal.value.revision
    ensures var j, t := s.workers[w].job, Step(s, Work(w, Fine, now), env);
            Step(t, Claim(v, later), env) != t <==> j.attempts < j.maxAttempts && later >= now + Backoff(j.attempts)
  {
    FailureIsRecorded(s, w, now, env);
    ClaimIsGrantedIff(Step(s, Work(w, Fine, now), env), v, later, env);
  }

  /** An attempt begins by counting itself, durably, before anything else. */
  lemma AttemptIsCounted(s: State, w: nat, now: int, env: Env)
    requires s.journal.Some? && w in s.workers && s.workers[w].Claimed?
             && s.workers[w].job.revision == s.journal.value.revision
    ensures var j, t := s.workers[w].job, Step(s, Work(w, Fine, now), env);
            && t.journal == Some(Job(j.id, j.uri, Running, j.attempts + 1, j.maxAttempts, j.nextAttemptAt, j.checkpoint,
                                     j.revision + 1, j.leaseOwner, j.leaseUntil, j.restore))
            && t.workers == s.workers[w := Phase(t.journal.value)] && t.cold == s.cold && t.backend == s.backend
  {
  }

  /** A job is due at once when it is submitted, and has five attempts. */
  lemma SubmittedIsDue(b: Backend, id: nat, uri: Uri, now: int, w: nat, later: int, env: Env)
    ensures var s := Step(Start(b), Submit(id, uri, now), env);
            && s.journal.Some? && s.journal.value.attempts == 0 && s.journal.value.maxAttempts == 5
            && (Step(s, Claim(w, later), env) != s <==> now <= later)
  {
  }
}
