/**
  Fencing: who may update the journal, what the durable record can look like from one step to
  the next, and that nothing is erased before a manifest holding it is durable.
*/
module LifecycleFencing {
  import opened Prelude
  import opened LifecycleModel
  import opened LifecycleSafety

  /** What one await of worker `w` can do to the journal: nothing, or store that worker's own record. */
  ghost predicate StoresOwn(s: State, w: nat, t: State)
    requires w in s.workers
  {
    var j := s.workers[w].job;
    || t.journal == s.journal
    || (&& s.journal.Some? && t.journal.Some? && j.revision == s.journal.value.revision
        && var d' := t.journal.value;
        && d'.revision == j.revision + 1 && d'.id == j.id && d'.uri == j.uri && d'.checkpoint == j.checkpoint
        && (d'.state.Succeeded? ==> j.state.Succeeded? || j.checkpoint == ALL_FLAGS)
        && (s.workers[w].Restorer() ==> d'.state == j.state))
  }

  /** What becomes of the workers: the others stay put, and `w` moves on at the journal's pace. */
  ghost predicate MovesOwn(s: State, w: nat, t: State, fate: Fate)
    requires w in s.workers
  {
    && t.workers - {w} == s.workers - {w}
    && (w in t.workers ==>
          && t.workers[w].Restorer() == s.workers[w].Restorer()
          && (t.journal == s.journal && !fate.RevisionOnly? ==> t.workers[w].job.revision == s.workers[w].job.revision)
          && (t.journal != s.journal && t.journal.Some? ==> t.workers[w].job.revision == t.journal.value.revision))
    && (s.cold.Some? ==> t.cold == s.cold)
  }

  lemma SaveStores(journal: Option<Job>, job: Job, fate: Fate)
    ensures var saved := Save(journal, job, fate);
            && (saved.journal != journal ==>
              saved.journal == Some(saved.job) && saved.job == job.(revision := job.revision + 1))
            && (saved.journal != journal ==> journal.Some? && journal.value.revision == job.revision)
            && (saved.ok ==> saved.journal != journal && fate.Fine?)
            && (saved.journal == journal && !fate.RevisionOnly? ==> saved.job == job)
  {
  }

  lemma JournalShape(s: State, w: nat, fate: Fate, now: int)
    requires w in s.workers && (s.workers[w].Claimed? || s.workers[w].Commit? || s.workers[w].Failing?)
    ensures var t := JournalStep(s, w, s.workers[w], fate, now); StoresOwn(s, w, t) && MovesOwn(s, w, t, fate)
  {
  }

  lemma PhaseShape(s: State, w: nat, fate: Fate, env: Env)
    requires w in s.workers && s.workers[w].Phase?
    ensures var t := PhaseStep(s, w, s.workers[w].job, fate, env); StoresOwn(s, w, t) && MovesOwn(s, w, t, fate)
  {
  }

  lemma SnapshotShape(s: State, w: nat, fate: Fate, now: int, env: Env)
    requires w in s.workers && (s.workers[w].HasEntry? || s.workers[w].HasEdges? || s.workers[w].HasAll?)
    ensures var t := SnapshotStep(s, w, s.workers[w], fate, now, env); StoresOwn(s, w, t) && MovesOwn(s, w, t, fate)
  {
  }

  lemma RemovalShape(s: State, w: nat, fate: Fate)
    requires w in s.workers && (s.workers[w].RemovingEdges? || s.workers[w].DeletingBlobs?)
    ensures var t := RemovalStep(s, w, s.workers[w], fate); StoresOwn(s, w, t) && MovesOwn(s, w, t, fate)
  {
  }

  lemma RestoreShape(s: State, w: nat, fate: Fate, now: int, env: Env)
    requires w in s.workers && s.workers[w].Restorer()
    ensures var t := RestoreStep(s, w, s.workers[w], fate, now, env); StoresOwn(s, w, t) && MovesOwn(s, w, t, fate)
  {
  }

  lemma WorkShape(s: State, w: nat, fate: Fate, now: int, env: Env)
    requires w in s.workers
    ensures var t := WorkStep(s, w, fate, now, env); StoresOwn(s, w, t) && MovesOwn(s, w, t, fate)
  {
    var k := s.workers[w];
    if fate.Crash? { assert Drop(s, w).workers - {w} == s.workers - {w}; }
    else if k.Restorer() { RestoreShape(s, w, fate, now, env); }
    else if k.Phase? { PhaseShape(s, w, fate, env); }
    else if k.HasEntry? || k.HasEdges? || k.HasAll? { SnapshotShape(s, w, fate, now, env); }
    else if k.RemovingEdges? || k.DeletingBlobs? { RemovalShape(s, w, fate); }
    else { JournalShape(s, w, fate, now); }
  }

  /**
    The record moves by one revision at a time, checkpoints and manifests are only ever gained, a
    terminal state stays.
  */
  lemma JournalOnlyAdvances(s: State, a: Action, env: Env, origin: Backend)
    requires Inv(s, origin) && WellFormed(origin, env) && s.journal.Some?
    ensures var t := Step(s, a, env);
            && t.journal.Some?
            && var d, d' := s.journal.value, t.journal.value;
            && d'.id == d.id && d'.uri == d.uri
            && (d' == d || d'.revision == d.revision + 1)
            && Implied(d.checkpoint, d'.checkpoint) && Ordered(d'.checkpoint)
            && (d'.state.Succeeded? ==> d'.checkpoint == ALL_FLAGS)
            && (Terminal(d.state) ==> d'.state == d.state && d'.checkpoint == d.checkpoint)
            && (s.cold.Some? ==> t.cold == s.cold)
  {
    StepKeeps(s, a, env, origin);
    if a.Work? && a.worker in s.workers {
      WorkAdvances(s, a, env, origin);
    }
  }

  lemma WorkAdvances(s: State, a: Action, env: Env, origin: Backend)
    requires Inv(s, origin) && s.journal.Some? && a.Work? && a.worker in s.workers
    ensures var t := Step(s, a, env);
            && t.journal.Some?
            && var d, d' := s.journal.value, t.journal.value;
            && d'.id == d.id && d'.uri == d.uri
            && (d' == d || d'.revision == d.revision + 1)
            && Implied(d.checkpoint, d'.checkpoint)
            && (Terminal(d.state) ==> d'.state == d.state && d'.checkpoint == d.checkpoint)
            && (s.cold.Some? ==> t.cold == s.cold)
  {
    assert WorkerOk(s.workers[a.worker], s.journal.value, s.cold, s.backend, origin);
    var t := WorkStep(s, a.worker, a.fate, a.now, env);
    WorkShape(s, a.worker, a.fate, a.now, env);
    assert Step(s, a, env) == t;
  }

  /** Over any run: the same, end to end. */
  lemma {:induction false} RunOnlyAdvances(s: State, acts: seq<Action>, env: Env, origin: Backend)
    requires Inv(s, origin) && WellFormed(origin, env) && s.journal.Some?
    ensures var t := Run(s, acts, env);
            && t.journal.Some?
            && var d, d' := s.journal.value, t.journal.value;
            && d'.id == d.id && d'.uri == d.uri && d.revision <= d'.revision
            && Implied(d.checkpoint, d'.checkpoint)
            && (Terminal(d.state) ==> d'.state == d.state && d'.checkpoint == d.checkpoint)
            && (s.cold.Some? ==> t.cold == s.cold)
    decreases |acts|
  {
    if acts != [] {
      JournalOnlyAdvances(s, acts[0], env, origin);
      StepKeeps(s, acts[0], env, origin);
      RunOnlyAdvances(Step(s, acts[0], env), acts[1..], env, origin);
    }
  }

  ghost predicate HoldsBlob(m: Manifest, h: Hash, data: Bytes)
  {
    exists i :: 0 <= i < |m.blobs| && m.blobs[i].0.hash == h && m.blobs[i].1 == data
  }

  /** Everything `origin` held is still live, unchanged, or is in the durable manifest. */
  ghost predicate Conserved(s: State, origin: Backend)
  {
    && (forall u :: u in origin.content ==>
          (u in s.backend.content && s.backend.content[u] == origin.content[u])
          || (s.cold.Some? && s.cold.value.entry == origin.content[u]))
    && (forall u :: u in origin.vectors ==>
          (u in s.backend.vectors && s.backend.vectors[u] == origin.vectors[u])
          || (s.cold.Some? && s.cold.value.vector == Some(origin.vectors[u])))
    && (forall e :: e in origin.edges ==> e in s.backend.edges || (s.cold.Some? && e in s.cold.value.edges))
    && (forall h :: h in origin.blobs ==>
          (h in s.backend.blobs && s.backend.blobs[h] == origin.blobs[h])
          || (s.cold.Some? && HoldsBlob(s.cold.value, h, origin.blobs[h])))
  }

  /** No run ever loses an item, whoever holds the lease; before the manifest checkpoint nothing is gone at all. */
  lemma NothingIsLost(origin: Backend, acts: seq<Action>, env: Env)
    requires WellFormed(origin, env)
    ensures var s := Run(Start(origin), acts, env);
            && Conserved(s, origin)
            && (s.journal.None? || !s.journal.value.checkpoint.manifest ==> s.backend == origin)
  {
    var s := Run(Start(origin), acts, env);
    RunKeeps(Start(origin), acts, env, origin);
    if s.cold.Some? {
      var m := s.cold.value;
      var uri := s.journal.value.uri;
      forall u | u in origin.content && u != uri ensures u in s.backend.content
        && s.backend.content[u] == origin.content[u] {
        assert u in (origin.content - {uri});
        assert (s.backend.content - {uri})[u] == (origin.content - {uri})[u];
      }
      forall u | u in origin.vectors && u != uri ensures u in s.backend.vectors
        && s.backend.vectors[u] == origin.vectors[u] {
        assert u in (origin.vectors - {uri});
        assert (s.backend.vectors - {uri})[u] == (origin.vectors - {uri})[u];
      }
      forall e | e in origin.edges && e !in s.backend.edges ensures e in m.edges {
        assert e in Elements(m.edges);
      }
      forall h | h in origin.blobs && h !in Hashes(m.blobs) ensures h in s.backend.blobs
        && s.backend.blobs[h] == origin.blobs[h] {
        assert h in (origin.blobs - Hashes(m.blobs));
        assert (s.backend.blobs - Hashes(m.blobs))[h] == (origin.blobs - Hashes(m.blobs))[h];
      }
    }
  }

  // ------------------------------------------------------------------ one holder

  ghost predicate OneHolder(s: State)
  {
    s.journal.Some? ==>
      forall x, y | x in s.workers && y in s.workers && Holds(s.workers[x], s.journal.value)
        && Holds(s.workers[y], s.journal.value) ::
        x == y
  }

  ghost predicate NoneAhead(s: State)
  {
    s.journal.Some? ==> forall x :: x in s.workers ==> !Ahead(s.workers[x], s.journal.value)
  }

  /**
    A new claim fences the others off exactly when no live copy was bumped by an update that failed to
    reach the file.
  */
  lemma ClaimFencesIff(s: State, w: nat, now: int, env: Env, origin: Backend)
    requires Inv(s, origin) && s.journal.Some? && w !in s.workers && Claimable(s.journal.value, now)
    ensures var t := Step(s, Claim(w, now), env);
            && Holds(t.workers[w], t.journal.value)
            && (OneHolder(t) <==> NoneAhead(s))
  {
    var d := s.journal.value;
    var t := Step(s, Claim(w, now), env);
    if !NoneAhead(s) {
      var x :| x in s.workers && Ahead(s.workers[x], d);
      assert Holds(t.workers[x], t.journal.value) && Holds(t.workers[w], t.journal.value) && x != w;
    } else {
      forall x | x in s.workers ensures !Holds(t.workers[x], t.journal.value) {
        assert WorkerOk(s.workers[x], d, s.cold, s.backend, origin);
      }
    }
  }

  predicate NoLostWrites(acts: seq<Action>)
  {
    forall a :: a in acts && a.Work? ==> !a.fate.RevisionOnly?
  }

  lemma HolderStep(s: State, a: Action, env: Env, origin: Backend)
    requires Inv(s, origin) && OneHolder(s) && NoneAhead(s)
    requires a.Work? ==> !a.fate.RevisionOnly?
    ensures OneHolder(Step(s, a, env)) && NoneAhead(Step(s, a, env))
  {
    if s.journal.Some? {
      var d := s.journal.value;
      forall x | x in s.workers ensures s.workers[x].Restorer() || s.workers[x].job.revision <= d.revision {
        assert WorkerOk(s.workers[x], d, s.cold, s.backend, origin);
      }
      if a.Work? && a.worker in s.workers {
        var t := WorkStep(s, a.worker, a.fate, a.now, env);
        WorkShape(s, a.worker, a.fate, a.now, env);
        assert Step(s, a, env) == t;
        forall x | x in t.workers && x != a.worker ensures x in s.workers && t.workers[x] == s.workers[x] {
          assert x in t.workers - {a.worker};
        }
      }
    }
  }

  /**
    If no journal update is lost after bumping its caller's copy, at most one worker ever holds the
    current revision.
  */
  lemma {:induction false} AtMostOneHolder(s: State, acts: seq<Action>, env: Env, origin: Backend)
    requires Inv(s, origin) && WellFormed(origin, env) && OneHolder(s) && NoneAhead(s) && NoLostWrites(acts)
    ensures OneHolder(Run(s, acts, env)) && NoneAhead(Run(s, acts, env))
    decreases |acts|
  {
    if acts != [] {
      assert acts[0] in acts;
      HolderStep(s, acts[0], env, origin);
      StepKeeps(s, acts[0], env, origin);
      assert forall a :: a in acts[1..] ==> a in acts;
      AtMostOneHolder(Step(s, acts[0], env), acts[1..], env, origin);
    }
  }

  /** A worker claims the job and starts its attempt. */
  const STARTED: seq<Action> := [Submit(7, "u", 0), Claim(1, 0), Work(1, Fine, 0)]

  /**
    It snapshots and stores the manifest; the checkpoint update is lost; the lease runs out and
    another worker claims.
  */
  const LOST: seq<Action> :=
    [Work(1, Fine, 0), Work(1, Fine, 0), Work(1, Fine, 0), Work(1, Fine, 0), Work(1, RevisionOnly, 0), Claim(2, 31)]

  /**
    With a lost write two workers do hold the current revision: the update bumped the first
    worker's copy but not the file, and the second worker's claim brings the journal to the very
    revision the first one carries.
  */
  lemma LostWriteBreaksFencing(env: Env)
    requires Lawful(env)
    ensures var entry := Entry("u", Text("t"), "", 0, 1);
            var origin := Backend(map["u" := entry], map[], {}, map[]);
            var s := Run(Start(origin), STARTED + LOST, env);
            && WellFormed(origin, env)
            && 1 in s.workers && 2 in s.workers && s.journal.Some?
            && Holds(s.workers[1], s.journal.value) && Holds(s.workers[2], s.journal.value)
  {
    var entry := Entry("u", Text("t"), "", 0, 1);
    var origin := Backend(map["u" := entry], map[], {}, map[]);
    var s3 := LostWriteStart(origin, env);
    LostWriteEnd(s3, entry, env);
    RunSplit(Start(origin), STARTED + LOST, |STARTED|, env);
    assert (STARTED + LOST)[..|STARTED|] == STARTED && (STARTED + LOST)[|STARTED|..] == LOST;
  }

  lemma LostWriteStart(origin: Backend, env: Env) returns (s: State)
    ensures s == Run(Start(origin), STARTED, env)
    ensures var d := Running1(ClaimedJob(NewJob(7, "u", 0), 1, 0));
            s == State(Some(d.(revision := 2)), None, origin, map[1 := Phase(d.(revision := 2))])
  {
    var s0 := Start(origin);
    var s1 := Step(s0, Submit(7, "u", 0), env);
    var s2 := Step(s1, Claim(1, 0), env);
    s := Step(s2, Work(1, Fine, 0), env);
    var acts := [Submit(7, "u", 0), Claim(1, 0), Work(1, Fine, 0)];
    assert acts[1..] == [Claim(1, 0), Work(1, Fine, 0)];
    assert acts[2..] == [Work(1, Fine, 0)];
    RunOne(s2, acts[2..], env);
    RunOne(s1, acts[1..], env);
  }

  lemma LostWriteEnd(s3: State, entry: Entry, env: Env)
    requires Lawful(env) && entry == Entry("u", Text("t"), "", 0, 1) && s3.cold.None?
    requires s3.backend == Backend(map["u" := entry], map[], {}, map[])
    requires s3.journal.Some? && s3.journal.value.uri == "u" && s3.journal.value.checkpoint == NO_FLAGS
    requires s3.journal.value.leaseUntil == Some(30) && s3.journal.value.state == Running
             && s3.journal.value.nextAttemptAt == 0
    requires s3.workers == map[1 := Phase(s3.journal.value)]
    ensures var s := Run(s3, LOST, env);
            && 1 in s.workers && 2 in s.workers && s.journal.Some?
            && Holds(s.workers[1], s.journal.value) && Holds(s.workers[2], s.journal.value)
  {
    var acts := LOST;
    var d := s3.journal.value;
    var s4, s5, s6 := LostWriteReads(s3, entry, env);
    var s7, s8 := LostWriteTail(s6, entry, env);
    RunOne(s8, acts[5..], env);
    RunOne(s7, acts[4..], env);
    RunOne(s6, acts[3..], env);
    RunOne(s5, acts[2..], env);
    RunOne(s4, acts[1..], env);
  }

  lemma LostWriteTail(s6: State, entry: Entry, env: Env) returns (s7: State, s8: State)
    requires s6.journal.Some? && s6.cold.None? && s6.journal.value.checkpoint == NO_FLAGS
    requires s6.journal.value.leaseUntil == Some(30) && s6.journal.value.state == Running
             && s6.journal.value.nextAttemptAt == 0
    requires s6.workers == map[1 := HasAll(s6.journal.value, entry, [], [], None)]
    ensures s7 == Step(s6, Work(1, Fine, 0), env) && s8 == Step(s7, Work(1, RevisionOnly, 0), env)
    ensures var s := Step(s8, Claim(2, 31), env);
            && 1 in s.workers && 2 in s.workers && s.journal.Some?
            && Holds(s.workers[1], s.journal.value) && Holds(s.workers[2], s.journal.value)
  {
    var d := s6.journal.value;
    s7 := Replace(s6.(cold := Some(Manifest(d.id, entry, [], [], None, 0))), 1,
      Commit(d.(checkpoint := NO_FLAGS.(manifest := true))));
    assert Step(s6, Work(1, Fine, 0), env) == s7;
    s8 := Replace(s7, 1, Failing(d.(checkpoint := NO_FLAGS.(manifest := true), revision := d.revision + 1)));
    assert Step(s7, Work(1, RevisionOnly, 0), env) == s8;
  }

  lemma NothingToList(env: Env)
    requires Lawful(env)
    ensures env.list({}) == []
  {
    DistinctCardinality(env.list({}));
  }

  lemma LostWriteReads(s3: State, entry: Entry, env: Env) returns (s4: State, s5: State, s6: State)
    requires Lawful(env) && entry == Entry("u", Text("t"), "", 0, 1) && s3.cold.None?
    requires s3.backend == Backend(map["u" := entry], map[], {}, map[])
    requires s3.journal.Some? && s3.journal.value.uri == "u" && s3.journal.value.checkpoint == NO_FLAGS
    requires s3.workers == map[1 := Phase(s3.journal.value)]
    ensures s4 == Step(s3, Work(1, Fine, 0), env) && s5 == Step(s4, Work(1, Fine, 0), env)
    ensures s6 == Step(s5, Work(1, Fine, 0), env)
    ensures s6 == s3.(workers := map[1 := HasAll(s3.journal.value, entry, [], [], None)])
  {
    var d := s3.journal.value;
    assert CollectBlobs(entry.payload) == [];
    assert Touching(s3.backend.edges, "u") == {};
    NothingToList(env);
    s4 := Replace(s3, 1, HasEntry(d, entry, []));
    assert Step(s3, Work(1, Fine, 0), env) == s4;
    s5 := Replace(s4, 1, HasEdges(d, entry, [], []));
    assert Step(s4, Work(1, Fine, 0), env) == s5;
    s6 := Replace(s5, 1, HasAll(d, entry, [], [], None));
    assert Step(s5, Work(1, Fine, 0), env) == s6;
  }

  lemma RunOne(s: State, acts: seq<Action>, env: Env)
    requires acts != []
    ensures Run(s, acts, env) == Run(Step(s, acts[0], env), acts[1..], env)
  {
  }

  lemma {:induction false} RunSplit(s: State, acts: seq<Action>, n: nat, env: Env)
    requires n <= |acts|
    ensures Run(s, acts, env) == Run(Run(s, acts[..n], env), acts[n..], env)
    decreases n
  {
    if n > 0 {
      assert acts[..n][1..] == acts[1..][..n - 1];
      assert acts[n..] == acts[1..][n - 1..];
      RunSplit(Step(s, acts[0], env), acts[1..], n - 1, env);
    } else {
      assert acts[..0] == [] && acts[0..] == acts;
    }
  }
}
