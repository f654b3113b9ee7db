/**
  Crash and resume: whatever happened before, one clean attempt either finishes the erasure
  exactly, or meets one of two windows: a manifest whose checkpoint was never stored, or, in a
  content store that refuses to delete what is not there, an entry that is gone without its
  checkpoint.
*/
module LifecycleResume {
  import opened Prelude
  import opened LifecycleModel
  import opened LifecycleSafety
  import opened LifecycleFencing
  import opened LifecycleOrder

  /** What an archived URI leaves behind. */
  function Erased(origin: Backend, uri: Uri): Backend
    requires uri in origin.content
  {
    var refs := CollectBlobs(origin.content[uri].payload);
    Backend(origin.content - {uri}, origin.vectors - {uri}, origin.edges - Touching(origin.edges, uri),
            origin.blobs - (set r | r in refs :: r.hash))
  }

  /** Reading the snapshot cannot fail on its own. */
  ghost predicate Readable(origin: Backend, uri: Uri)
  {
    uri in origin.content && forall r :: r in CollectBlobs(origin.content[uri].payload) ==> r.hash in origin.blobs
  }

  // ------------------------------------------------------------------ driving one attempt without faults

  function Missing(f: Flags): nat
  {
    (if f.manifest then 0 else 1) + (if f.vector then 0 else 1) + (if f.graph then 0 else 1)
    + (if f.content then 0 else 1) + (if f.blobs then 0 else 1)
  }

  /** How much of an attempt is left: awaits by checkpoint, then items within one checkpoint. */
  ghost function Rank(k: Worker): (r: (nat, nat))
  {
    var base := 10 * Missing(k.job.checkpoint);
    match k
    case Claimed(_) => (100, 0)
    case Commit(_) => (base + 9, 0)
    case Phase(_) => (base + 8, 0)
    case HasEntry(_, entry, fetched) =>
      (base + 7, if |fetched| <= |CollectBlobs(entry.payload)| then |CollectBlobs(entry.payload)| - |fetched| else 0)
    case HasEdges(_, _, _, _) => (base + 6, 0)
    case HasAll(_, _, _, _, _) => (base + 5, 0)
    case RemovingEdges(_, todo) => (base + 4, |todo|)
    case DeletingBlobs(_, doomed) => (base + 4, |doomed|)
    case _ => (0, 0)
  }

  ghost predicate InOrder(k: Worker)
  {
    && Ordered(k.job.checkpoint)
    && (k.HasEntry? || k.HasEdges? || k.HasAll? ==> !k.job.checkpoint.manifest)
    && (k.RemovingEdges? ==> k.job.checkpoint.vector && !k.job.checkpoint.graph)
    && (k.DeletingBlobs? ==> k.job.checkpoint.content && !k.job.checkpoint.blobs)
  }

  ghost predicate Nearer(r: (nat, nat), q: (nat, nat)) { r.0 < q.0 || (r.0 == q.0 && r.1 < q.1) }

  ghost predicate Decreased(s: State, w: nat, t: State)
    requires w in s.workers
  {
    w in t.workers ==>
      !t.workers[w].Restorer() && InOrder(t.workers[w]) && Nearer(Rank(t.workers[w]), Rank(s.workers[w]))
  }

  lemma PhaseDecreases(s: State, w: nat, env: Env)
    requires w in s.workers && s.workers[w].Phase? && InOrder(s.workers[w])
    ensures Decreased(s, w, PhaseStep(s, w, s.workers[w].job, Fine, env))
  {
  }

  lemma RemovalDecreases(s: State, w: nat)
    requires w in s.workers && (s.workers[w].RemovingEdges? || s.workers[w].DeletingBlobs?) && InOrder(s.workers[w])
    ensures Decreased(s, w, RemovalStep(s, w, s.workers[w], Fine))
  {
  }

  lemma AwaitDecreases(s: State, w: nat, now: int, env: Env)
    requires w in s.workers && !s.workers[w].Restorer() && InOrder(s.workers[w])
    ensures Decreased(s, w, WorkStep(s, w, Fine, now, env))
  {
    var k := s.workers[w];
    if k.Phase? { PhaseDecreases(s, w, env); }
    else if k.RemovingEdges? || k.DeletingBlobs? { RemovalDecreases(s, w); }
  }

  /** Worker `w` alone, awaiting until its attempt is over; the `i`-th await sees `clock(i)`. */
  ghost function Drive(s: State, w: nat, clock: nat -> int, i: nat, env: Env): State
    requires w in s.workers ==> !s.workers[w].Restorer() && InOrder(s.workers[w])
    decreases if w in s.workers then Rank(s.workers[w]).0 + 1 else 0, if w in s.workers then Rank(s.workers[w]).1 else 0
  {
    if w !in s.workers then s
    else
      AwaitDecreases(s, w, clock(i), env);
      Drive(WorkStep(s, w, Fine, clock(i), env), w, clock, i + 1, env)
  }

  /** Claim the job and run one attempt. */
  ghost function Attempt(s: State, w: nat, clock: nat -> int, i: nat, env: Env): State
    requires w !in s.workers && s.journal.Some? && Ordered(s.journal.value.checkpoint)
  {
    Drive(Step(s, Claim(w, clock(i)), env), w, clock, i + 1, env)
  }

  // ------------------------------------------------------------------ an attempt that can succeed

  /** Worker `k` will find its manifest stored, or can still store the first one. */
  ghost predicate OnTrack(k: Worker, cold: Option<Manifest>, origin: Backend)
  {
    && !k.Restorer() && !k.Failing?
    && (k.job.checkpoint.manifest
        || (cold.None? && Readable(origin, k.job.uri)))
  }

  /** The content store will not refuse the delete `k` still has to make. */
  predicate Deletable(k: Worker, b: Backend, env: Env)
  {
    env.strict && !k.job.checkpoint.content ==> k.job.uri in b.content
  }

  /** Worker `w` holds the journal's revision and is on track. */
  ghost predicate Advancing(s: State, w: nat, uri: Uri, env: Env, origin: Backend)
  {
    && s.journal.Some? && s.journal.value.uri == uri && w in s.workers
    && Holds(s.workers[w], s.journal.value) && OnTrack(s.workers[w], s.cold, origin)
    && Deletable(s.workers[w], s.backend, env)
  }

  lemma OnTrackSnapshot(s: State, w: nat, now: int, env: Env, origin: Backend)
    requires Inv(s, origin) && s.journal.Some? && Advancing(s, w, s.journal.value.uri, env, origin)
    requires s.workers[w].HasEntry? || s.workers[w].HasEdges? || s.workers[w].HasAll?
    ensures Advancing(SnapshotStep(s, w, s.workers[w], Fine, now, env), w, s.journal.value.uri, env, origin)
  {
  }

  lemma OnTrackPhase(s: State, w: nat, env: Env, origin: Backend)
    requires Inv(s, origin) && s.journal.Some? && Advancing(s, w, s.journal.value.uri, env, origin)
    requires s.workers[w].Phase? && !s.workers[w].job.checkpoint.blobs
    ensures Advancing(PhaseStep(s, w, s.workers[w].job, Fine, env), w, s.journal.value.uri, env, origin)
  {
  }

  lemma OnTrackJournal(s: State, w: nat, now: int, env: Env, origin: Backend)
    requires Inv(s, origin) && s.journal.Some? && Advancing(s, w, s.journal.value.uri, env, origin)
    requires s.workers[w].Claimed? || s.workers[w].Commit?
    ensures Advancing(JournalStep(s, w, s.workers[w], Fine, now), w, s.journal.value.uri, env, origin)
  {
  }

  lemma OnTrackAwait(s: State, w: nat, now: int, env: Env, origin: Backend)
    requires Inv(s, origin) && s.journal.Some? && Advancing(s, w, s.journal.value.uri, env, origin)
    requires !(s.workers[w].Phase? && s.workers[w].job.checkpoint.blobs)
    ensures Advancing(WorkStep(s, w, Fine, now, env), w, s.journal.value.uri, env, origin)
  {
    var k := s.workers[w];
    assert WorkerOk(k, s.journal.value, s.cold, s.backend, origin);
    if k.Phase? { OnTrackPhase(s, w, env, origin); }
    else if k.HasEntry? || k.HasEdges? || k.HasAll? { OnTrackSnapshot(s, w, now, env, origin); }
    else if k.Claimed? || k.Commit? { OnTrackJournal(s, w, now, env, origin); }
    else { assert k.job.checkpoint.manifest; }
  }

  /** The last await: all five checkpoints are there, so everything the manifest names is gone. */
  lemma LastAwait(s: State, w: nat, now: int, env: Env, origin: Backend)
    requires Inv(s, origin) && w in s.workers && s.journal.Some?
    requires Holds(s.workers[w], s.journal.value) && s.workers[w].Phase? && s.workers[w].job.checkpoint.blobs
    ensures var t := WorkStep(s, w, Fine, now, env);
            && w !in t.workers && t.journal.Some? && t.journal.value.state.Succeeded?
              && t.journal.value.checkpoint == ALL_FLAGS
            && t.journal.value.uri == s.journal.value.uri
            && t.journal.value.uri in origin.content && t.backend == Erased(origin, t.journal.value.uri)
  {
    assert WorkerOk(s.workers[w], s.journal.value, s.cold, s.backend, origin);
    ErasedExactly(s.backend, origin, s.journal.value.uri, s.cold.value);
  }

  lemma ErasedExactly(b: Backend, origin: Backend, uri: Uri, m: Manifest)
    requires Exact(m, origin, uri) && Within(b, origin, uri, m) && GoneUpTo(ALL_FLAGS, b, uri, Some(m))
    ensures b == Erased(origin, uri)
  {
    var refs := CollectBlobs(m.entry.payload);
    var hashes := set r | r in refs :: r.hash;
    assert hashes == Hashes(m.blobs) by {
      forall h | h in hashes ensures h in Hashes(m.blobs) {
        var i :| 0 <= i < |refs| && refs[i].hash == h;
        assert m.blobs[i].0.hash == h;
      }
    }
    assert b.content == b.content - {uri};
    assert b.vectors == b.vectors - {uri};
    forall e | e in b.edges ensures e in origin.edges && e !in Touching(origin.edges, uri) {
      assert e !in Touching(b.edges, uri);
    }
    assert b.edges == origin.edges - Touching(origin.edges, uri);
    forall h | h in b.blobs ensures h !in Hashes(m.blobs) {
      assert h !in Hashes(m.blobs) * b.blobs.Keys;
    }
    assert b.blobs == b.blobs - Hashes(m.blobs);
  }

  lemma DriveSucceeds(s: State, w: nat, clock: nat -> int, i: nat, env: Env, origin: Backend)
    requires Inv(s, origin) && WellFormed(origin, env) && w in s.workers && s.journal.Some? && InOrder(s.workers[w])
    requires Advancing(s, w, s.journal.value.uri, env, origin)
    ensures var t := Drive(s, w, clock, i, env);
            && t.journal.Some? && t.journal.value.state.Succeeded? && t.journal.value.uri == s.journal.value.uri
            && t.journal.value.uri in origin.content && t.backend == Erased(origin, t.journal.value.uri)
    decreases Rank(s.workers[w]).0, Rank(s.workers[w]).1
  {
    var k := s.workers[w];
    var t := WorkStep(s, w, Fine, clock(i), env);
    WorkKeeps(s, w, Fine, clock(i), env, origin);
    AwaitDecreases(s, w, clock(i), env);
    if k.Phase? && k.job.checkpoint.blobs {
      LastAwait(s, w, clock(i), env, origin);
    } else {
      OnTrackAwait(s, w, clock(i), env, origin);
      DriveSucceeds(t, w, clock, i + 1, env, origin);
    }
  }

  /** Every action is a fault-free await of `w`. */
  predicate FineAwaits(acts: seq<Action>, w: nat)
  {
    forall a :: a in acts ==> a.Work? && a.worker == w && a.fate.Fine?
  }

  /** A fault-free run of the only moving worker to its end, whatever the clock shows. */
  lemma {:induction false} FineRunErases(s: State, w: nat, acts: seq<Action>, env: Env, origin: Backend)
    requires Inv(s, origin) && WellFormed(origin, env) && s.journal.Some?
             && Advancing(s, w, s.journal.value.uri, env, origin)
    requires FineAwaits(acts, w) && w !in Run(s, acts, env).workers
    ensures var t := Run(s, acts, env);
            && t.journal.Some? && t.journal.value.state.Succeeded? && t.journal.value.uri == s.journal.value.uri
            && t.journal.value.uri in origin.content && t.backend == Erased(origin, t.journal.value.uri)
    decreases |acts|
  {
    var a := acts[0];
    assert a in acts;
    assert forall b :: b in acts[1..] ==> b in acts;
    var t := Step(s, a, env);
    StepKeeps(s, a, env, origin);
    if s.workers[w].Phase? && s.workers[w].job.checkpoint.blobs {
      LastAwait(s, w, a.now, env, origin);
      Idle(t, w, acts[1..], env);
    } else {
      OnTrackAwait(s, w, a.now, env, origin);
      FineRunErases(t, w, acts[1..], env, origin);
    }
  }

  /** Awaits of a worker that is gone change nothing. */
  lemma {:induction false} Idle(s: State, w: nat, acts: seq<Action>, env: Env)
    requires w !in s.workers && FineAwaits(acts, w)
    ensures Run(s, acts, env) == s
    decreases |acts|
  {
    if acts != [] {
      assert acts[0] in acts;
      assert forall b :: b in acts[1..] ==> b in acts;
      Idle(s, w, acts[1..], env);
    }
  }

  // ------------------------------------------------------------------ an attempt that cannot

  /** A manifest is stored whose checkpoint is not, and `w` does not carry that checkpoint. */
  ghost predicate Blocked(s: State, w: nat)
  {
    && s.journal.Some? && s.cold.Some? && !s.journal.value.checkpoint.manifest && !s.journal.value.state.Succeeded?
    && (w in s.workers ==> !s.workers[w].Restorer() && !s.workers[w].job.checkpoint.manifest)
  }

  lemma BlockedAwait(s: State, w: nat, now: int, env: Env, origin: Backend)
    requires Inv(s, origin) && Blocked(s, w) && w in s.workers && now != s.cold.value.createdAt
    ensures var t := WorkStep(s, w, Fine, now, env); Blocked(t, w) && t.cold == s.cold
  {
  }

  lemma DriveBlocked(s: State, w: nat, clock: nat -> int, i: nat, env: Env, origin: Backend)
    requires Inv(s, origin) && WellFormed(origin, env) && Blocked(s, w)
             && (forall j: nat | i <= j :: clock(j) != s.cold.value.createdAt)
    requires w in s.workers ==> InOrder(s.workers[w])
    ensures var t := Drive(s, w, clock, i, env);
            Blocked(t, w) && t.cold == s.cold && t.backend == origin
    decreases if w in s.workers then Rank(s.workers[w]).0 + 1 else 0, if w in s.workers then Rank(s.workers[w]).1 else 0
  {
    if w in s.workers {
      WorkKeeps(s, w, Fine, clock(i), env, origin);
      AwaitDecreases(s, w, clock(i), env);
      BlockedAwait(s, w, clock(i), env, origin);
      DriveBlocked(WorkStep(s, w, Fine, clock(i), env), w, clock, i + 1, env, origin);
    }
  }

  /** The entry is gone, its checkpoint is not stored, and `w` does not carry it. */
  ghost predicate Refused(s: State, w: nat, env: Env)
  {
    && InContentWindow(s, env)
    && (w in s.workers ==>
          && !s.workers[w].Restorer() && s.workers[w].job.uri == s.journal.value.uri
          && s.workers[w].job.checkpoint == s.journal.value.checkpoint
          && (s.workers[w].Claimed? || s.workers[w].Phase? || s.workers[w].Failing?))
  }

  lemma RefusedAwait(s: State, w: nat, now: int, env: Env, origin: Backend)
    requires Inv(s, origin) && Refused(s, w, env) && w in s.workers
    ensures var t := WorkStep(s, w, Fine, now, env);
            Refused(t, w, env) && t.backend == s.backend && t.journal.value.uri == s.journal.value.uri
  {
    assert WorkerOk(s.workers[w], s.journal.value, s.cold, s.backend, origin);
  }

  lemma DriveRefused(s: State, w: nat, clock: nat -> int, i: nat, env: Env, origin: Backend)
    requires Inv(s, origin) && WellFormed(origin, env) && Refused(s, w, env)
    requires w in s.workers ==> InOrder(s.workers[w])
    ensures var t := Drive(s, w, clock, i, env); Refused(t, w, env) && t.backend == s.backend
    decreases if w in s.workers then Rank(s.workers[w]).0 + 1 else 0, if w in s.workers then Rank(s.workers[w]).1 else 0
  {
    if w in s.workers {
      WorkKeeps(s, w, Fine, clock(i), env, origin);
      AwaitDecreases(s, w, clock(i), env);
      RefusedAwait(s, w, clock(i), env, origin);
      DriveRefused(WorkStep(s, w, Fine, clock(i), env), w, clock, i + 1, env, origin);
    }
  }

  // ------------------------------------------------------------------ the theorems

  /** The window: a manifest in cold storage without its checkpoint in the journal. */
  predicate InWindow(s: State)
  {
    s.journal.Some? && s.cold.Some? && !s.journal.value.checkpoint.manifest
  }

  /** The second window, in a strict content store: the entry gone without its checkpoint in the journal. */
  predicate InContentWindow(s: State, env: Env)
  {
    && env.strict && s.journal.Some?
    && var d := s.journal.value;
       d.checkpoint.graph && !d.checkpoint.content && d.uri !in s.backend.content
  }

  /** What the second window has left of the live stores: the blobs. */
  function HalfErased(origin: Backend, uri: Uri): Backend
    requires uri in origin.content
  {
    Erased(origin, uri).(blobs := origin.blobs)
  }

  lemma ContentWindowLeaves(s: State, env: Env, origin: Backend)
    requires Inv(s, origin) && Backed(s, origin) && InContentWindow(s, env)
    ensures var uri := s.journal.value.uri;
            uri in origin.content && s.backend == HalfErased(origin, uri) && !s.journal.value.state.Succeeded?
  {
    var uri, b := s.journal.value.uri, s.backend;
    assert b.content == b.content - {uri} && b.vectors == b.vectors - {uri};
    forall e | e in b.edges ensures e in origin.edges && e !in Touching(origin.edges, uri) {
      assert e !in Touching(b.edges, uri);
    }
    assert b.edges == origin.edges - Touching(origin.edges, uri);
  }

  /** Outside both windows a claim puts a worker on track. */
  lemma ClaimAdvances(s: State, w: nat, now: int, env: Env, origin: Backend)
    requires Inv(s, origin) && Backed(s, origin) && s.journal.Some? && w !in s.workers
             && Claimable(s.journal.value, now)
    requires Readable(origin, s.journal.value.uri) && !InWindow(s) && !InContentWindow(s, env)
    ensures Advancing(Step(s, Claim(w, now), env), w, s.journal.value.uri, env, origin)
  {
  }

  /**
    From every state any run can reach, a clean attempt with a fresh clock succeeds exactly when
    the job is in neither window.  If it succeeds the stores are exactly `origin` without the
    URI; in the first window they are still exactly `origin`, and in the second they are what
    that window has left of it.
  */
  lemma CleanAttemptSucceedsIff(origin: Backend, acts: seq<Action>, w: nat, clock: nat -> int, i: nat, env: Env)
    requires WellFormed(origin, env)
    requires var s := Run(Start(origin), acts, env);
             && s.journal.Some? && Claimable(s.journal.value, clock(i)) && w !in s.workers
             && Readable(origin, s.journal.value.uri)
             && (InWindow(s) ==> forall j: nat | i <= j :: clock(j) != s.cold.value.createdAt)
    ensures var s := Run(Start(origin), acts, env);
            && Inv(s, origin)
            && var t := Attempt(s, w, clock, i, env);
            && t.journal.Some?
            && (t.journal.value.state.Succeeded? <==> !InWindow(s) && !InContentWindow(s, env))
            && t.backend == if InWindow(s) then origin
                            else if InContentWindow(s, env) then HalfErased(origin, s.journal.value.uri)
                            else Erased(origin, s.journal.value.uri)
  {
    var s := Run(Start(origin), acts, env);
    RunKeepsBacked(Start(origin), acts, env, origin);
    var c := Step(s, Claim(w, clock(i)), env);
    StepKeeps(s, Claim(w, clock(i)), env, origin);
    if InWindow(s) {
      DriveBlocked(c, w, clock, i + 1, env, origin);
    } else if InContentWindow(s, env) {
      ContentWindowLeaves(s, env, origin);
      DriveRefused(c, w, clock, i + 1, env, origin);
      AttemptKeeps(s, w, clock, i, env, origin);
    } else {
      ClaimAdvances(s, w, clock(i), env, origin);
      DriveSucceeds(c, w, clock, i + 1, env, origin);
    }
  }

  lemma AttemptKeeps(s: State, w: nat, clock: nat -> int, i: nat, env: Env, origin: Backend)
    requires Inv(s, origin) && WellFormed(origin, env) && s.journal.Some? && w !in s.workers
    requires Claimable(s.journal.value, clock(i))
    ensures Inv(Attempt(s, w, clock, i, env), origin)
  {
    StepKeeps(s, Claim(w, clock(i)), env, origin);
    DriveKeeps(Step(s, Claim(w, clock(i)), env), w, clock, i + 1, env, origin);
  }

  lemma DriveKeeps(s: State, w: nat, clock: nat -> int, i: nat, env: Env, origin: Backend)
    requires Inv(s, origin) && WellFormed(origin, env)
    requires w in s.workers ==> !s.workers[w].Restorer() && InOrder(s.workers[w])
    ensures Inv(Drive(s, w, clock, i, env), origin)
    decreases if w in s.workers then Rank(s.workers[w]).0 + 1 else 0, if w in s.workers then Rank(s.workers[w]).1 else 0
  {
    if w in s.workers {
      WorkKeeps(s, w, Fine, clock(i), env, origin);
      AwaitDecreases(s, w, clock(i), env);
      DriveKeeps(WorkStep(s, w, Fine, clock(i), env), w, clock, i + 1, env, origin);
    }
  }

  /** Crash-resume equivalence: outside both windows the outcome is that of an uninterrupted run. */
  lemma CrashResumeEquivalence(origin: Backend, id: nat, uri: Uri, now0: int, acts: seq<Action>,
                               w: nat, clock: nat -> int, i: nat, calmClock: nat -> int, env: Env)
    requires WellFormed(origin, env) && Readable(origin, uri) && now0 <= calmClock(0)
    requires var s := Run(Start(origin), [Submit(id, uri, now0)] + acts, env);
             && s.journal.Some? && Claimable(s.journal.value, clock(i)) && w !in s.workers
             && !InWindow(s) && !InContentWindow(s, env)
    ensures var s := Run(Start(origin), [Submit(id, uri, now0)] + acts, env);
            var calm := Step(Start(origin), Submit(id, uri, now0), env);
            && Inv(s, origin)
            && Attempt(s, w, clock, i, env).backend == Attempt(calm, w, calmClock, 0, env).backend
  {
    var submit := Submit(id, uri, now0);
    var calm := Step(Start(origin), submit, env);
    RunSplit(Start(origin), [submit] + acts, 1, env);
    assert ([submit] + acts)[..1] == [submit];
    assert Run(Start(origin), [submit], env) == calm;
    RunKeeps(Start(origin), [submit], env, origin);
    RunOnlyAdvances(calm, ([submit] + acts)[1..], env, origin);
    CleanAttemptSucceedsIff(origin, [submit] + acts, w, clock, i, env);
    CleanAttemptSucceedsIff(origin, [submit], w, calmClock, 0, env);
  }

  // ------------------------------------------------------------------ the window is for ever

  /** Nobody is left who could still store the missing checkpoint. */
  ghost predicate Stuck(s: State)
  {
    && InWindow(s)
    && forall x :: x in s.workers && s.workers[x].job.checkpoint.manifest ==>
         s.workers[x].Restorer() || s.workers[x].job.revision < s.journal.value.revision
  }

  /** The clock never shows the instant of the stored manifest again. */
  predicate Fresh(acts: seq<Action>, createdAt: int)
  {
    forall a :: a in acts && a.Work? ==> a.now != createdAt
  }

  lemma StuckStep(s: State, a: Action, env: Env, origin: Backend)
    requires Inv(s, origin) && Stuck(s) && (a.Work? ==> a.now != s.cold.value.createdAt)
    ensures Stuck(Step(s, a, env)) && Step(s, a, env).cold == s.cold
  {
    var d := s.journal.value;
    if a.Work? && a.worker in s.workers {
      var k := s.workers[a.worker];
      var t := WorkStep(s, a.worker, a.fate, a.now, env);
      assert WorkerOk(k, d, s.cold, s.backend, origin);
      WorkShape(s, a.worker, a.fate, a.now, env);
      assert Step(s, a, env) == t;
      StuckWorker(s, a.worker, a.fate, a.now, env, origin);
      forall x | x in t.workers && x != a.worker ensures x in s.workers && t.workers[x] == s.workers[x] {
        assert x in t.workers - {a.worker};
      }
    }
  }

  lemma StuckWorker(s: State, w: nat, fate: Fate, now: int, env: Env, origin: Backend)
    requires Inv(s, origin) && Stuck(s) && w in s.workers && now != s.cold.value.createdAt
    ensures var t := WorkStep(s, w, fate, now, env);
            w in t.workers && t.workers[w].job.checkpoint.manifest && !t.workers[w].Restorer() ==>
              s.workers[w].job.checkpoint.manifest && t.workers[w].job.revision == s.workers[w].job.revision
  {
  }

  /** Once stuck, every continuation whatsoever leaves the job unfinished and the live stores untouched. */
  lemma {:induction false} StuckForever(s: State, acts: seq<Action>, env: Env, origin: Backend)
    requires Inv(s, origin) && WellFormed(origin, env) && Stuck(s) && Fresh(acts, s.cold.value.createdAt)
    ensures var t := Run(s, acts, env);
            Stuck(t) && t.cold == s.cold && t.backend == origin && !t.journal.value.state.Succeeded?
    decreases |acts|
  {
    if acts != [] {
      var t := Step(s, acts[0], env);
      assert acts[0] in acts;
      assert forall a :: a in acts[1..] ==> a in acts;
      StepKeeps(s, acts[0], env, origin);
      StuckStep(s, acts[0], env, origin);
      StuckForever(t, acts[1..], env, origin);
    }
  }

  /** A crash of the only worker between the manifest and its checkpoint does get the job stuck. */
  lemma CrashInWindowSticks(s: State, w: nat, now: int, env: Env, origin: Backend)
    requires Inv(s, origin) && s.workers.Keys == {w} && s.workers[w].Commit?
    requires s.journal.Some? && !s.workers[w].job.checkpoint.vector && !s.journal.value.checkpoint.manifest
    ensures Stuck(Step(s, Work(w, Crash, now), env))
  {
  }

  // ------------------------------------------------------------------ so is the second one

  /** Nobody is left who could still store the content checkpoint. */
  ghost predicate ContentStuck(s: State, env: Env)
  {
    && InContentWindow(s, env)
    && forall x :: x in s.workers && s.workers[x].job.checkpoint.content ==>
         s.workers[x].Restorer() || s.workers[x].job.revision < s.journal.value.revision
  }

  /** Before a job has succeeded nothing writes an entry back. */
  lemma ContentOnlyGoes(s: State, w: nat, fate: Fate, now: int, env: Env, origin: Backend)
    requires Inv(s, origin) && s.journal.Some? && !s.journal.value.state.Succeeded? && w in s.workers
    ensures WorkStep(s, w, fate, now, env).backend.content.Keys <= s.backend.content.Keys
  {
    assert WorkerOk(s.workers[w], s.journal.value, s.cold, s.backend, origin);
  }

  /** Nor does a worker gain the content checkpoint, with no entry left to delete. */
  lemma ContentStuckWorker(s: State, w: nat, fate: Fate, now: int, env: Env, origin: Backend)
    requires Inv(s, origin) && ContentStuck(s, env) && w in s.workers
    ensures var t := WorkStep(s, w, fate, now, env);
            w in t.workers && t.workers[w].job.checkpoint.content && !t.workers[w].Restorer() ==>
              s.workers[w].job.checkpoint.content && t.workers[w].job.revision == s.workers[w].job.revision
  {
    var k := s.workers[w];
    assert WorkerOk(k, s.journal.value, s.cold, s.backend, origin);
    if !fate.Crash? && (k.Claimed? || k.Commit? || k.Failing?) { ContentStuckJournal(s, w, fate, now, env); }
  }

  lemma ContentStuckJournal(s: State, w: nat, fate: Fate, now: int, env: Env)
    requires ContentStuck(s, env) && w in s.workers
             && (s.workers[w].Claimed? || s.workers[w].Commit? || s.workers[w].Failing?)
    ensures var t := JournalStep(s, w, s.workers[w], fate, now);
            w in t.workers && t.workers[w].job.checkpoint.content && !t.workers[w].Restorer() ==>
              s.workers[w].job.checkpoint.content && t.workers[w].job.revision == s.workers[w].job.revision
  {
  }

  lemma ContentStuckStep(s: State, a: Action, env: Env, origin: Backend)
    requires Inv(s, origin) && Backed(s, origin) && WellFormed(origin, env) && ContentStuck(s, env)
    ensures ContentStuck(Step(s, a, env), env)
  {
    var d := s.journal.value;
    JournalOnlyAdvances(s, a, env, origin);
    if a.Work? && a.worker in s.workers {
      var t := WorkStep(s, a.worker, a.fate, a.now, env);
      assert Step(s, a, env) == t;
      assert WorkerOk(s.workers[a.worker], d, s.cold, s.backend, origin);
      WorkShape(s, a.worker, a.fate, a.now, env);
      ContentStuckWorker(s, a.worker, a.fate, a.now, env, origin);
      ContentOnlyGoes(s, a.worker, a.fate, a.now, env, origin);
      forall x | x in t.workers && x != a.worker ensures x in s.workers && t.workers[x] == s.workers[x] {
        assert x in t.workers - {a.worker};
      }
    }
  }

  /** Once stuck, every continuation leaves the job unfinished and the blobs alone, and every restore is refused. */
  lemma {:induction false} ContentStuckForever(s: State, acts: seq<Action>, env: Env, origin: Backend)
    requires Inv(s, origin) && Backed(s, origin) && WellFormed(origin, env) && ContentStuck(s, env)
    ensures var t := Run(s, acts, env);
            && ContentStuck(t, env) && !t.journal.value.state.Succeeded?
            && t.journal.value.uri in origin.content && t.backend == HalfErased(origin, t.journal.value.uri)
            && forall x :: Step(t, BeginRestore(x), env) == t
    decreases |acts|
  {
    if acts == [] {
      ContentWindowLeaves(s, env, origin);
    } else {
      StepKeeps(s, acts[0], env, origin);
      StepKeepsBacked(s, acts[0], env, origin);
      ContentStuckStep(s, acts[0], env, origin);
      ContentStuckForever(Step(s, acts[0], env), acts[1..], env, origin);
    }
  }

  /** A crash of the only worker between deleting the entry and storing the checkpoint gets the job there. */
  lemma CrashInContentWindowSticks(s: State, w: nat, now: int, env: Env, origin: Backend)
    requires Inv(s, origin) && s.workers.Keys == {w} && s.workers[w].Commit? && env.strict && s.journal.Some?
    requires s.workers[w].job.checkpoint.content && s.journal.value.checkpoint.graph
             && !s.journal.value.checkpoint.content
    ensures ContentStuck(Step(s, Work(w, Crash, now), env), env)
  {
    assert WorkerOk(s.workers[w], s.journal.value, s.cold, s.backend, origin);
  }
}
