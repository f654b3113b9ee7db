/**
  Four runs from the beginning, for an entry of plain text with a vector, written twice before:
  into the window after the manifest, into the window after the deleted entry, into the window
  of a restore, and a restore undone by a worker whose lease was taken over.
*/
module LifecycleRuns {
  import opened Prelude
  import opened LifecycleModel
  import opened LifecycleSafety
  import opened LifecycleFencing
  import opened LifecycleOrder
  import opened LifecycleResume
  import opened LifecycleStamps
  import opened LifecycleRestore

  const ENTRY := Entry("u", Text("t"), "", 0, 2)
  const POINT := Point("u", [], "")
  const ORIGIN := Backend(map["u" := ENTRY], map["u" := POINT], {}, map[])
  const MANIFEST := Manifest(7, ENTRY, [], [], Some(POINT), 0)

  /** `n` fault-free awaits of `w`. */
  function Fines(w: nat, n: nat): seq<Action> { if n == 0 then [] else [Work(w, Fine, 0)] + Fines(w, n - 1) }

  lemma RunFines(s: State, w: nat, n: nat, env: Env)
    requires n > 0
    ensures Run(s, Fines(w, n), env) == Run(Step(s, Work(w, Fine, 0), env), Fines(w, n - 1), env)
  {
    assert Fines(w, n)[1..] == Fines(w, n - 1);
  }

  lemma TwoFines(s: State, w: nat, t: State, u: State, env: Env)
    requires Step(s, Work(w, Fine, 0), env) == t && Step(t, Work(w, Fine, 0), env) == u
    ensures Run(s, Fines(w, 2), env) == u
  {
    RunFines(s, w, 2, env);
    RunFines(t, w, 1, env);
  }

  lemma Concatenated(s: State, acts: seq<Action>, more: seq<Action>, env: Env)
    ensures Run(s, acts + more, env) == Run(Run(s, acts, env), more, env)
  {
    RunSplit(s, acts + more, |acts|, env);
    assert (acts + more)[..|acts|] == acts && (acts + more)[|acts|..] == more;
  }

  // ------------------------------------------------------------------ one phase at a time

  /** `w` stands between phases with the record itself in hand, over a manifest without edges and blobs. */
  ghost predicate Standing(s: State, w: nat, uri: Uri)
  {
    && s.journal.Some? && w in s.workers && s.workers[w] == Phase(s.journal.value) && s.journal.value.uri == uri
    && s.cold.Some? && s.cold.value.edges == [] && s.cold.value.blobs == []
  }

  /** The record and the worker one checkpoint further, over stores `b`. */
  function Further(s: State, w: nat, cp: Flags, b: Backend): State
    requires s.journal.Some?
  {
    var d := s.journal.value.(checkpoint := cp, revision := s.journal.value.revision + 1);
    Replace(s.(journal := Some(d), backend := b), w, Phase(d))
  }

  function Deleting(s: State, w: nat, cp: Flags, b: Backend): State
    requires s.journal.Some?
  {
    Replace(s.(backend := b), w, Commit(s.journal.value.(checkpoint := cp)))
  }

  /** Nothing but the checkpoint and the revision of the record moves. */
  lemma StandsFurther(s: State, w: nat, uri: Uri, cp: Flags, b: Backend)
    requires Standing(s, w, uri)
    ensures var t := Further(s, w, cp, b);
            && Standing(t, w, uri) && t.cold == s.cold && t.backend == b && t.workers - {w} == s.workers - {w}
            && t.journal.value == s.journal.value.(checkpoint := cp, revision := s.journal.value.revision + 1)
  {
  }

  lemma CommitStep(s: State, w: nat, cp: Flags, b: Backend, env: Env)
    requires s.journal.Some?
    ensures Step(Deleting(s, w, cp, b), Work(w, Fine, 0), env) == Further(s, w, cp, b)
  {
    var t := Deleting(s, w, cp, b);
    assert Replace(t, w, Phase(s.journal.value)).workers == Replace(s, w, Phase(s.journal.value)).workers;
  }

  lemma VectorPhase(s: State, w: nat, uri: Uri, env: Env)
    requires Standing(s, w, uri) && s.journal.value.checkpoint == Flags(true, false, false, false, false)
    ensures var b := s.backend.(vectors := s.backend.vectors - {uri});
            Run(s, Fines(w, 2), env) == Further(s, w, Flags(true, true, false, false, false), b)
  {
    var b, cp := s.backend.(vectors := s.backend.vectors - {uri}), Flags(true, true, false, false, false);
    CommitStep(s, w, cp, b, env);
    TwoFines(s, w, Deleting(s, w, cp, b), Further(s, w, cp, b), env);
  }

  lemma GraphPhase(s: State, w: nat, uri: Uri, env: Env)
    requires Standing(s, w, uri) && s.journal.value.checkpoint == Flags(true, true, false, false, false)
    ensures Run(s, Fines(w, 2), env) == Further(s, w, Flags(true, true, true, false, false), s.backend)
  {
    var cp := Flags(true, true, true, false, false);
    CommitStep(s, w, cp, s.backend, env);
    TwoFines(s, w, Deleting(s, w, cp, s.backend), Further(s, w, cp, s.backend), env);
  }

  lemma ContentStep(s: State, w: nat, uri: Uri, env: Env)
    requires Standing(s, w, uri) && s.journal.value.checkpoint == Flags(true, true, true, false, false)
             && uri in s.backend.content
    ensures var b := s.backend.(content := s.backend.content - {uri});
            Step(s, Work(w, Fine, 0), env) == Deleting(s, w, Flags(true, true, true, true, false), b)
  {
  }

  lemma ContentPhase(s: State, w: nat, uri: Uri, env: Env)
    requires Standing(s, w, uri) && s.journal.value.checkpoint == Flags(true, true, true, false, false)
             && uri in s.backend.content
    ensures var b := s.backend.(content := s.backend.content - {uri});
            Run(s, Fines(w, 2), env) == Further(s, w, Flags(true, true, true, true, false), b)
  {
    var b, cp := s.backend.(content := s.backend.content - {uri}), Flags(true, true, true, true, false);
    ContentStep(s, w, uri, env);
    CommitStep(s, w, cp, b, env);
    TwoFines(s, w, Deleting(s, w, cp, b), Further(s, w, cp, b), env);
  }

  lemma BlobsPhase(s: State, w: nat, uri: Uri, env: Env)
    requires Standing(s, w, uri) && s.journal.value.checkpoint == Flags(true, true, true, true, false)
    ensures Run(s, Fines(w, 2), env) == Further(s, w, ALL_FLAGS, s.backend)
  {
    CommitStep(s, w, ALL_FLAGS, s.backend, env);
    TwoFines(s, w, Deleting(s, w, ALL_FLAGS, s.backend), Further(s, w, ALL_FLAGS, s.backend), env);
  }

  // ------------------------------------------------------------------ up to the manifest

  /** The job once its first attempt has started. */
  const STARTED_JOB: Job := Running1(ClaimedJob(NewJob(7, "u", 0), 1, 0)).(revision := 2)

  const MANIFEST_ONLY := Flags(true, false, false, false, false)

  /** The manifest is stored, its checkpoint is not. */
  const SNAPPED := State(Some(STARTED_JOB), Some(MANIFEST), ORIGIN,
    map[1 := Commit(STARTED_JOB.(checkpoint := MANIFEST_ONLY))])

  lemma OriginIsWellFormed(env: Env)
    requires Lawful(env)
    ensures WellFormed(ORIGIN, env) && Readable(ORIGIN, "u")
  {
    assert CollectBlobs(ENTRY.payload) == [];
  }

  /** Where worker 1 stands while it reads its snapshot. */
  function Reading(k: Worker): State { State(Some(STARTED_JOB), None, ORIGIN, map[1 := k]) }

  lemma ReadEntry(env: Env)
    requires Lawful(env)
    ensures Run(Reading(Phase(STARTED_JOB)), Fines(1, 2), env) == Reading(HasEdges(STARTED_JOB, ENTRY, [], []))
  {
    var s, t := Reading(Phase(STARTED_JOB)), Reading(HasEntry(STARTED_JOB, ENTRY, []));
    assert Step(s, Work(1, Fine, 0), env) == t;
    assert CollectBlobs(ENTRY.payload) == [] && Touching(ORIGIN.edges, "u") == {};
    NothingToList(env);
    TwoFines(s, 1, t, Reading(HasEdges(STARTED_JOB, ENTRY, [], [])), env);
  }

  lemma ReadVector(env: Env)
    ensures Run(Reading(HasEdges(STARTED_JOB, ENTRY, [], [])), Fines(1, 2), env) == SNAPPED
  {
    var s := Reading(HasEdges(STARTED_JOB, ENTRY, [], []));
    var t := Reading(HasAll(STARTED_JOB, ENTRY, [], [], Some(POINT)));
    assert Step(s, Work(1, Fine, 0), env) == t;
    TwoFines(s, 1, t, SNAPPED, env);
  }

  lemma SnapshotRun(env: Env)
    requires Lawful(env)
    ensures Run(Start(ORIGIN), STARTED + Fines(1, 4), env) == SNAPPED
  {
    var s := LostWriteStart(ORIGIN, env);
    assert s == Reading(Phase(STARTED_JOB));
    ReadEntry(env);
    ReadVector(env);
    FinesAdd(1, 2, 2);
    Concatenated(s, Fines(1, 2), Fines(1, 2), env);
    Concatenated(Start(ORIGIN), STARTED, Fines(1, 4), env);
  }

  /** The run into the first window: the manifest is stored, and its worker crashes before the checkpoint is. */
  const INTO_WINDOW: seq<Action> := STARTED + Fines(1, 4) + [Work(1, Crash, 0)]

  lemma WindowIsReached(env: Env)
    requires Lawful(env)
    ensures var s := Run(Start(ORIGIN), INTO_WINDOW, env);
            WellFormed(ORIGIN, env) && Inv(s, ORIGIN) && Stuck(s) && s.workers == map[]
  {
    OriginIsWellFormed(env);
    SnapshotRun(env);
    Concatenated(Start(ORIGIN), STARTED + Fines(1, 4), [Work(1, Crash, 0)], env);
    RunKeeps(Start(ORIGIN), STARTED + Fines(1, 4), env, ORIGIN);
    RunKeeps(Start(ORIGIN), INTO_WINDOW, env, ORIGIN);
    var t := Step(SNAPPED, Work(1, Crash, 0), env);
    assert Run(SNAPPED, [Work(1, Crash, 0)], env) == t;
    assert t.workers == map[];
  }

  /** The manifest checkpoint is durable and worker 1 is about to delete the vector. */
  const CHECKED := STARTED_JOB.(checkpoint := MANIFEST_ONLY, revision := 3)

  lemma CheckedRun(env: Env)
    requires Lawful(env)
    ensures Run(Start(ORIGIN), STARTED + Fines(1, 5), env)
            == State(Some(CHECKED), Some(MANIFEST), ORIGIN, map[1 := Phase(CHECKED)])
  {
    SnapshotRun(env);
    FinesAdd(1, 4, 1);
    assert STARTED + Fines(1, 5) == (STARTED + Fines(1, 4)) + Fines(1, 1);
    Concatenated(Start(ORIGIN), STARTED + Fines(1, 4), Fines(1, 1), env);
    RunFines(SNAPPED, 1, 1, env);
  }

  lemma {:induction false} FinesAdd(w: nat, m: nat, n: nat)
    ensures Fines(w, m + n) == Fines(w, m) + Fines(w, n)
    decreases m
  {
    if m > 0 { FinesAdd(w, m - 1, n); }
  }

  // ------------------------------------------------------------------ up to the deleted entry

  const UP_TO_GRAPH := Flags(true, true, true, false, false)
  const UP_TO_CONTENT := Flags(true, true, true, true, false)

  /** The first two phases of worker `w`, over the original stores. */
  lemma TwoPhases(s: State, w: nat, env: Env)
    requires Standing(s, w, "u") && s.journal.value.checkpoint == MANIFEST_ONLY && s.backend == ORIGIN
    ensures var t := Run(s, Fines(w, 4), env);
            && Standing(t, w, "u") && t.cold == s.cold && t.backend == ORIGIN.(vectors := map[])
            && t.journal.value == s.journal.value.(checkpoint := UP_TO_GRAPH, revision := s.journal.value.revision + 2)
            && t.workers == s.workers[w := Phase(t.journal.value)]
  {
    var b := ORIGIN.(vectors := map[]);
    assert ORIGIN.vectors - {"u"} == map[];
    var t := Further(s, w, Flags(true, true, false, false, false), b);
    VectorPhase(s, w, "u", env);
    GraphPhase(t, w, "u", env);
    FinesAdd(w, 2, 2);
    Concatenated(s, Fines(w, 2), Fines(w, 2), env);
    assert t.workers[w := Phase(s.journal.value)] == s.workers[w := Phase(s.journal.value)];
  }

  /** The run into the second window: the entry is deleted, and its worker crashes before the checkpoint is stored. */
  const INTO_CONTENT_WINDOW: seq<Action> := STARTED + Fines(1, 5) + Fines(1, 4) + Fines(1, 1) + [Work(1, Crash, 0)]

  lemma ContentWindowIsReached(env: Env)
    requires Lawful(env) && env.strict
    ensures var s := Run(Start(ORIGIN), INTO_CONTENT_WINDOW, env);
            WellFormed(ORIGIN, env) && Inv(s, ORIGIN) && Backed(s, ORIGIN) && ContentStuck(s, env) && s.workers == map[]
  {
    OriginIsWellFormed(env);
    RunKeepsBacked(Start(ORIGIN), INTO_CONTENT_WINDOW, env, ORIGIN);
    CheckedRun(env);
    var s := State(Some(CHECKED), Some(MANIFEST), ORIGIN, map[1 := Phase(CHECKED)]);
    TwoPhases(s, 1, env);
    var t := Run(s, Fines(1, 4), env);
    ContentStep(t, 1, "u", env);
    RunFines(t, 1, 1, env);
    var u := Run(t, Fines(1, 1), env);
    Concatenated(Start(ORIGIN), STARTED + Fines(1, 5), Fines(1, 4), env);
    Concatenated(Start(ORIGIN), STARTED + Fines(1, 5) + Fines(1, 4), Fines(1, 1), env);
    Concatenated(Start(ORIGIN), STARTED + Fines(1, 5) + Fines(1, 4) + Fines(1, 1), [Work(1, Crash, 0)], env);
    assert Run(u, [Work(1, Crash, 0)], env) == Step(u, Work(1, Crash, 0), env);
    assert Step(u, Work(1, Crash, 0), env).workers == map[];
  }

  // ------------------------------------------------------------------ a restore, one phase at a time

  /** Restore `w` stands between phases with the record itself in hand. */
  ghost predicate PuttingBack(s: State, w: nat)
  {
    && s.journal.Some? && s.cold == Some(MANIFEST) && s.journal.value.uri == "u"
    && w in s.workers && s.workers[w] == RestorePhase(s.journal.value, MANIFEST)
  }

  function FurtherBack(s: State, w: nat, f: Flags, b: Backend): State
    requires s.journal.Some?
  {
    var d := s.journal.value.(restore := f, revision := s.journal.value.revision + 1);
    Replace(s.(journal := Some(d), backend := b), w, RestorePhase(d, MANIFEST))
  }

  function Written(s: State, w: nat, f: Flags, b: Backend): State
    requires s.journal.Some?
  {
    Replace(s.(backend := b), w, RestoreCommit(s.journal.value.(restore := f), MANIFEST))
  }

  lemma CommitBack(s: State, w: nat, f: Flags, b: Backend, env: Env)
    requires s.journal.Some?
    ensures Step(Written(s, w, f, b), Work(w, Fine, 0), env) == FurtherBack(s, w, f, b)
  {
    var t := Written(s, w, f, b);
    var d := s.journal.value;
    assert Replace(t, w, RestorePhase(d, MANIFEST)).workers == Replace(s, w, RestorePhase(d, MANIFEST)).workers;
  }

  /** One phase of a restore that takes a single await before its checkpoint. */
  lemma PhaseBack(s: State, w: nat, f: Flags, b: Backend, env: Env)
    requires PuttingBack(s, w) && Step(s, Work(w, Fine, 0), env) == Written(s, w, f, b)
    ensures Run(s, Fines(w, 2), env) == FurtherBack(s, w, f, b) && PuttingBack(FurtherBack(s, w, f, b), w)
  {
    CommitBack(s, w, f, b, env);
    TwoFines(s, w, Written(s, w, f, b), FurtherBack(s, w, f, b), env);
  }

  /** The entry as the store stamps it where there is none. */
  function Again(env: Env): Entry { env.stamp(None, ENTRY, 0) }

  lemma EntryWritten(s: State, w: nat, f: Flags, env: Env)
    requires PuttingBack(s, w) && s.journal.value.restore.blobs
    requires !s.journal.value.restore.content && "u" !in s.backend.content
    requires f == s.journal.value.restore.(content := true)
    ensures Run(s, Fines(w, 2), env) == Written(s, w, f, s.backend.(content := s.backend.content["u" := Again(env)]))
  {
    var b := s.backend.(content := s.backend.content["u" := Again(env)]);
    var t := Replace(s, w, RestoreWrite(s.journal.value, MANIFEST));
    assert Step(s, Work(w, Fine, 0), env) == t;
    assert Step(t, Work(w, Fine, 0), env) == Written(s, w, f, b);
    TwoFines(s, w, t, Written(s, w, f, b), env);
  }

  lemma EntryBack(s: State, w: nat, f: Flags, env: Env)
    requires PuttingBack(s, w) && s.journal.value.restore.blobs
    requires !s.journal.value.restore.content && "u" !in s.backend.content
    requires f == s.journal.value.restore.(content := true)
    ensures var b := s.backend.(content := s.backend.content["u" := Again(env)]);
            Run(s, Fines(w, 3), env) == FurtherBack(s, w, f, b) && PuttingBack(FurtherBack(s, w, f, b), w)
  {
    var b := s.backend.(content := s.backend.content["u" := Again(env)]);
    EntryWritten(s, w, f, env);
    CommitBack(s, w, f, b, env);
    RunFines(Written(s, w, f, b), w, 1, env);
    FinesAdd(w, 2, 1);
    Concatenated(s, Fines(w, 2), Fines(w, 1), env);
  }

  /** The stores after a restore: those of the beginning, the entry stamped. */
  function Regained(env: Env): Backend { ORIGIN.(content := map["u" := Again(env)]) }

  lemma RegainedIsWhole(env: Env)
    ensures UpToStamp(Regained(env), ORIGIN, "u", env)
  {
    assert Regained(env).content["u" := ENTRY] == ORIGIN.content;
  }

  /** All of a restore over stores from which only this entry and its vector are missing. */
  lemma RestoreRun(s: State, w: nat, env: Env)
    requires PuttingBack(s, w) && s.journal.value.restore == NO_FLAGS
    requires s.backend == ORIGIN.(content := map[], vectors := map[])
    ensures var t := Run(s, Fines(w, 10), env);
            && t.backend == Regained(env) && t.workers == s.workers - {w} && t.cold == s.cold
            && t.journal.Some? && Restored(t.journal.value)
            && t.journal.value
               == s.journal.value.(restore := t.journal.value.restore, revision := s.journal.value.revision + 4)
  {
    FirstBack(s, w, env);
    var s2 := Run(s, Fines(w, 5), env);
    LastBack(s2, w, env);
    FinesAdd(w, 5, 5);
    Concatenated(s, Fines(w, 5), Fines(w, 5), env);
  }

  /** Its blobs, of which there are none, and its entry. */
  lemma FirstBack(s: State, w: nat, env: Env)
    requires PuttingBack(s, w) && s.journal.value.restore == NO_FLAGS
    requires s.backend == ORIGIN.(content := map[], vectors := map[])
    ensures var t, f := Run(s, Fines(w, 5), env), NO_FLAGS.(blobs := true, content := true);
            && PuttingBack(t, w) && t.backend == Regained(env).(vectors := map[]) && t.workers - {w} == s.workers - {w}
            && t.journal.value == s.journal.value.(restore := f, revision := s.journal.value.revision + 2)
  {
    var f := NO_FLAGS.(blobs := true);
    var t := FurtherBack(s, w, f, s.backend);
    PhaseBack(s, w, f, s.backend, env);
    EntryBack(t, w, f.(content := true), env);
    FinesAdd(w, 2, 3);
    Concatenated(s, Fines(w, 2), Fines(w, 3), env);
    assert s.backend.content["u" := Again(env)] == map["u" := Again(env)];
  }

  /** Its edges, of which there are none, and its vector. */
  lemma LastBack(s2: State, w: nat, env: Env)
    requires PuttingBack(s2, w) && s2.backend == Regained(env).(vectors := map[])
    requires s2.journal.value.restore == NO_FLAGS.(blobs := true, content := true)
    ensures var t := Run(s2, Fines(w, 5), env);
            && t.backend == Regained(env) && t.workers == s2.workers - {w} && t.cold == s2.cold
            && t.journal.Some? && Restored(t.journal.value)
            && t.journal.value
               == s2.journal.value.(restore := t.journal.value.restore, revision := s2.journal.value.revision + 2)
  {
    var f3 := NO_FLAGS.(blobs := true, content := true, graph := true);
    var f4 := f3.(vector := true);
    var s3 := FurtherBack(s2, w, f3, s2.backend);
    PhaseBack(s2, w, f3, s2.backend, env);
    var s4 := FurtherBack(s3, w, f4, Regained(env));
    PhaseBack(s3, w, f4, Regained(env), env);
    var s5 := Drop(s4, w);
    assert Step(s4, Work(w, Fine, 0), env) == s5;
    RunFines(s4, w, 1, env);
    FinesAdd(w, 2, 3);
    FinesAdd(w, 2, 1);
    Concatenated(s2, Fines(w, 2), Fines(w, 3), env);
    Concatenated(s3, Fines(w, 2), Fines(w, 1), env);
    assert s5.workers == s2.workers - {w};
  }

  // ------------------------------------------------------------------ a lease taken over

  /** Worker 2 claims at 31, when the lease of worker 1 has run out, and finishes the job. */
  const TAKEN_OVER: seq<Action> := [Claim(2, 31)] + Fines(2, 10)

  lemma ClaimedAgain(env: Env) returns (r: State)
    ensures var s := State(Some(CHECKED), Some(MANIFEST), ORIGIN, map[1 := Phase(CHECKED)]);
            Run(s, [Claim(2, 31)] + Fines(2, 1), env) == r
    ensures r.journal.Some? && r.journal.value
            == CHECKED.(revision := 5, attempts := 2, leaseOwner := Some(2), leaseUntil := Some(61))
    ensures r == State(r.journal, Some(MANIFEST), ORIGIN, map[1 := Phase(CHECKED), 2 := Phase(r.journal.value)])
  {
    var s := State(Some(CHECKED), Some(MANIFEST), ORIGIN, map[1 := Phase(CHECKED)]);
    var j := ClaimedJob(CHECKED, 2, 31);
    var c := s.(journal := Some(j), workers := map[1 := Phase(CHECKED), 2 := Claimed(j)]);
    assert Step(s, Claim(2, 31), env) == c;
    var d := Running1(j).(revision := j.revision + 1);
    r := s.(journal := Some(d), workers := map[1 := Phase(CHECKED), 2 := Phase(d)]);
    assert Step(c, Work(2, Fine, 0), env) == r;
    assert Run(s, [Claim(2, 31)], env) == c;
    RunFines(c, 2, 1, env);
    Concatenated(s, [Claim(2, 31)], Fines(2, 1), env);
  }

  lemma FinishStep(s: State, w: nat, env: Env)
    requires Standing(s, w, "u") && s.journal.value.checkpoint == ALL_FLAGS
    ensures var d := s.journal.value;
            Run(s, Fines(w, 1), env) == Drop(s.(journal := Some(FinishedJob(d).(revision := d.revision + 1))), w)
  {
    RunFines(s, w, 1, env);
  }

  /** The last two phases, the entry being the last thing left to delete. */
  lemma LastDeletes(s: State, w: nat, env: Env)
    requires Standing(s, w, "u") && s.journal.value.checkpoint == UP_TO_GRAPH && s.backend == ORIGIN.(vectors := map[])
    ensures var t := Run(s, Fines(w, 4), env);
            && Standing(t, w, "u") && t.cold == s.cold && t.workers - {w} == s.workers - {w}
            && t.backend == ORIGIN.(content := map[], vectors := map[])
            && t.journal.value == s.journal.value.(checkpoint := ALL_FLAGS, revision := s.journal.value.revision + 2)
  {
    var gone := ORIGIN.(content := map[], vectors := map[]);
    assert ORIGIN.content - {"u"} == map[];
    var t := Further(s, w, UP_TO_CONTENT, gone);
    ContentPhase(s, w, "u", env);
    StandsFurther(s, w, "u", UP_TO_CONTENT, gone);
    BlobsPhase(t, w, "u", env);
    StandsFurther(t, w, "u", ALL_FLAGS, gone);
    FinesAdd(w, 2, 2);
    Concatenated(s, Fines(w, 2), Fines(w, 2), env);
  }

  /** And the final record. */
  lemma LastPhases(s: State, w: nat, env: Env)
    requires Standing(s, w, "u") && s.journal.value.checkpoint == UP_TO_GRAPH && s.backend == ORIGIN.(vectors := map[])
    ensures var t := Run(s, Fines(w, 5), env);
            && t.journal == Some(FinishedJob(s.journal.value).(checkpoint := ALL_FLAGS,
              revision := s.journal.value.revision + 3))
            && t.cold == s.cold && t.workers == s.workers - {w}
              && t.backend == ORIGIN.(content := map[], vectors := map[])
  {
    var t := Run(s, Fines(w, 4), env);
    LastDeletes(s, w, env);
    FinishStep(t, w, env);
    FinesAdd(w, 4, 1);
    Concatenated(s, Fines(w, 4), Fines(w, 1), env);
  }

  /** The rest of a job from its vector on. */
  lemma FinishRun(r: State, w: nat, env: Env)
    requires Standing(r, w, "u") && r.journal.value.checkpoint == MANIFEST_ONLY && r.backend == ORIGIN
    ensures var t := Run(r, Fines(w, 9), env);
            && t.journal == Some(FinishedJob(r.journal.value).(checkpoint := ALL_FLAGS,
              revision := r.journal.value.revision + 5))
            && t.cold == r.cold && t.workers == r.workers - {w}
              && t.backend == ORIGIN.(content := map[], vectors := map[])
  {
    TwoPhases(r, w, env);
    var t1 := Run(r, Fines(w, 4), env);
    LastPhases(t1, w, env);
    FinesAdd(w, 4, 5);
    Concatenated(r, Fines(w, 4), Fines(w, 5), env);
    assert t1.workers - {w} == r.workers - {w};
  }

  /** The job done, restored or not, with worker 1 still before the vector. */
  ghost predicate LeftBehind(s: State, b: Backend)
  {
    && s.journal.Some? && s.journal.value.state.Succeeded? && s.journal.value.uri == "u"
    && s.cold == Some(MANIFEST) && s.workers == map[1 := Phase(CHECKED)] && s.backend == b
  }

  lemma TakeOverRun(env: Env)
    ensures var s := State(Some(CHECKED), Some(MANIFEST), ORIGIN, map[1 := Phase(CHECKED)]);
            var t := Run(s, TAKEN_OVER, env);
            LeftBehind(t, ORIGIN.(content := map[], vectors := map[])) && t.journal.value.restore == NO_FLAGS
  {
    var s := State(Some(CHECKED), Some(MANIFEST), ORIGIN, map[1 := Phase(CHECKED)]);
    var r := ClaimedAgain(env);
    FinesAdd(2, 1, 9);
    assert TAKEN_OVER == ([Claim(2, 31)] + Fines(2, 1)) + Fines(2, 9);
    Concatenated(s, [Claim(2, 31)] + Fines(2, 1), Fines(2, 9), env);
    FinishedBySecond(r, env);
  }

  lemma FinishedBySecond(r: State, env: Env)
    requires Standing(r, 2, "u") && r.journal.value.checkpoint == MANIFEST_ONLY && r.backend == ORIGIN
    requires r.cold == Some(MANIFEST) && r.workers.Keys == {1, 2} && r.workers[1] == Phase(CHECKED)
    requires r.journal.value.restore == NO_FLAGS
    ensures var t := Run(r, Fines(2, 9), env);
            LeftBehind(t, ORIGIN.(content := map[], vectors := map[])) && t.journal.value.restore == NO_FLAGS
  {
    FinishRun(r, 2, env);
    assert r.workers - {2} == map[1 := Phase(CHECKED)];
  }

  /** Up to a finished restore, with worker 1 still where it was when its lease ran out. */
  const RESTORED: seq<Action> := STARTED + Fines(1, 5) + TAKEN_OVER + ([BeginRestore(3)] + Fines(3, 10))

  lemma RestoredRun(env: Env)
    requires Lawful(env)
    ensures var s := Run(Start(ORIGIN), RESTORED, env); LeftBehind(s, Regained(env)) && Restored(s.journal.value)
  {
    CheckedRun(env);
    TakeOverRun(env);
    var s1 := State(Some(CHECKED), Some(MANIFEST), ORIGIN, map[1 := Phase(CHECKED)]);
    var s2 := Run(s1, TAKEN_OVER, env);
    var s3 := Step(s2, BeginRestore(3), env);
    RestoreRun(s3, 3, env);
    assert Run(s2, [BeginRestore(3)], env) == s3;
    assert s3.workers - {3} == map[1 := Phase(CHECKED)];
    Concatenated(s2, [BeginRestore(3)], Fines(3, 10), env);
    Concatenated(Start(ORIGIN), STARTED + Fines(1, 5), TAKEN_OVER, env);
    Concatenated(Start(ORIGIN), STARTED + Fines(1, 5) + TAKEN_OVER, [BeginRestore(3)] + Fines(3, 10), env);
  }

  /** The restore is finished and the stores are whole; then worker 1 deletes the vector. */
  lemma StaleWorkerRun(env: Env)
    requires Lawful(env)
    ensures var s := Run(Start(ORIGIN), RESTORED, env);
            && WellFormed(ORIGIN, env) && Whole(s, env, ORIGIN) && Restored(s.journal.value)
            && 1 in s.workers && Harmful(s.workers[1], ORIGIN)
            && !UpToStamp(Run(s, [Work(1, Fine, 62)], env).backend, ORIGIN, "u", env)
  {
    OriginIsWellFormed(env);
    RunKeepsTraced(Start(ORIGIN), RESTORED, env, ORIGIN);
    RestoredRun(env);
    RegainedIsWhole(env);
    VectorGoes(Run(Start(ORIGIN), RESTORED, env), env);
  }

  lemma VectorGoes(s: State, env: Env)
    requires LeftBehind(s, Regained(env))
    ensures !UpToStamp(Run(s, [Work(1, Fine, 62)], env).backend, ORIGIN, "u", env) && Harmful(s.workers[1], ORIGIN)
  {
    assert Run(s, [Work(1, Fine, 62)], env) == Step(s, Work(1, Fine, 62), env);
    assert "u" !in Run(s, [Work(1, Fine, 62)], env).backend.vectors;
    LackingIsNotWhole(Run(s, [Work(1, Fine, 62)], env).backend, ORIGIN, "u", env);
  }

  // ------------------------------------------------------------------ the window of a restore

  /** Worker 1 finishes the job, and restore 3 writes the entry back and crashes before its checkpoint. */
  const ARCHIVED: seq<Action> := STARTED + Fines(1, 5) + Fines(1, 9)
  const HALF_RESTORED: seq<Action> := ARCHIVED + ([BeginRestore(3)] + Fines(3, 4))
  const INTO_RESTORE_WINDOW: seq<Action> := HALF_RESTORED + [Work(3, Crash, 0)]

  lemma ArchivedRun(env: Env)
    requires Lawful(env)
    ensures var s := Run(Start(ORIGIN), ARCHIVED, env);
            && Archived(s, ORIGIN) && s.workers == map[] && s.cold == Some(MANIFEST) && s.journal.value.uri == "u"
            && s.backend == ORIGIN.(content := map[], vectors := map[])
  {
    CheckedRun(env);
    FinishRun(Run(Start(ORIGIN), STARTED + Fines(1, 5), env), 1, env);
    Concatenated(Start(ORIGIN), STARTED + Fines(1, 5), Fines(1, 9), env);
  }

  /** Four awaits of a restore: the blobs, of which there are none, their checkpoint, and the entry read and written. */
  lemma HalfBack(s: State, w: nat, env: Env)
    requires PuttingBack(s, w) && s.journal.value.restore == NO_FLAGS && "u" !in s.backend.content
    ensures var f1 := NO_FLAGS.(blobs := true);
            Run(s, Fines(w, 4), env)
            == Written(FurtherBack(s, w, f1, s.backend), w, f1.(content := true),
                       s.backend.(content := s.backend.content["u" := Again(env)]))
  {
    var f1 := NO_FLAGS.(blobs := true);
    PhaseBack(s, w, f1, s.backend, env);
    EntryWritten(FurtherBack(s, w, f1, s.backend), w, f1.(content := true), env);
    FinesAdd(w, 2, 2);
    Concatenated(s, Fines(w, 2), Fines(w, 2), env);
  }

  /** The restore has written the entry, and its checkpoint is still to come. */
  lemma HalfRestoredRun(env: Env)
    requires Lawful(env) && Again(env) != ENTRY
    ensures var t := Run(Start(ORIGIN), HALF_RESTORED, env);
            && t.workers.Keys == {3} && t.workers[3].RestoreCommit? && t.journal.Some?
            && !t.journal.value.restore.content && Clashes(t)
  {
    ArchivedRun(env);
    var s := Run(Start(ORIGIN), ARCHIVED, env);
    var begun := Step(s, BeginRestore(3), env);
    HalfBack(begun, 3, env);
    assert Run(s, [BeginRestore(3)], env) == begun;
    Concatenated(s, [BeginRestore(3)], Fines(3, 4), env);
    Concatenated(Start(ORIGIN), ARCHIVED, [BeginRestore(3)] + Fines(3, 4), env);
  }

  /** Into the window, and into it for ever, in any store whose stamp shows. */
  lemma RestoreWindowIsReached(env: Env)
    requires Lawful(env) && Again(env) != ENTRY
    ensures var s := Run(Start(ORIGIN), INTO_RESTORE_WINDOW, env);
            WellFormed(ORIGIN, env) && RestoreStuck(s, env, ORIGIN) && s.workers == map[]
  {
    OriginIsWellFormed(env);
    ArchivedRun(env);
    RunKeepsTraced(Start(ORIGIN), ARCHIVED, env, ORIGIN);
    RestoringRun(Run(Start(ORIGIN), ARCHIVED, env), [BeginRestore(3)] + Fines(3, 4), env, ORIGIN);
    Concatenated(Start(ORIGIN), ARCHIVED, [BeginRestore(3)] + Fines(3, 4), env);
    HalfRestoredRun(env);
    var t := Run(Start(ORIGIN), HALF_RESTORED, env);
    RunKeepsTraced(Start(ORIGIN), HALF_RESTORED, env, ORIGIN);
    CrashInRestoreWindowSticks(t, 3, 0, env, ORIGIN);
    assert Run(t, [Work(3, Crash, 0)], env) == Step(t, Work(3, Crash, 0), env);
    assert Step(t, Work(3, Crash, 0), env).workers == map[];
    Concatenated(Start(ORIGIN), HALF_RESTORED, [Work(3, Crash, 0)], env);
  }

  /** As the stamps of SQL do here whatever the clock says, for they count the versions from one again. */
  lemma SqlStampShows(env: Env, redact: Entry -> Entry)
    requires StampsLikeSql(env, redact)
    ensures Again(env) != ENTRY
  {
  }
}
