/**
  The executor as it is written: a journal file, a cold store and the live stores updated in
  place, one attempt running from its claim to its last journal update.  Every method returns
  the trace of its awaits, and that trace is a run of the state machine, so what is proved
  about all runs holds of what these methods do.
*/
module LifecycleExecutor {
  import opened Prelude
  import opened LifecycleModel
  import opened LifecycleSafety
  import opened LifecycleFencing
  import opened LifecycleOrder
  import opened LifecycleResume
  import opened LifecycleLeases
  import opened LifecycleStamps
  import opened LifecycleRestore

  type Key = string

  function Lookup<V>(m: map<Key, V>, key: Key): Option<V>
  {
    if key in m then Some(m[key]) else None
  }

  datatype ContentLevel = L0 | L1 | L2

  datatype LifecycleAction = Keep | Downgrade(to: ContentLevel) | Archive | Consolidate | Delete | Freeze

  datatype Operation = ArchiveOperation | DeleteOperation | ColdStorageOperation

  datatype SubmitError = Unsupported | NotStored

  /** The operation an action stands for, if it has a destructive execution. */
  function OperationOf(action: LifecycleAction): Option<Operation>
  {
    match action
    case Archive => Some(ArchiveOperation)
    case Delete => Some(DeleteOperation)
    case Downgrade(to) => if to.L2? then None else Some(ColdStorageOperation)
    case _ => None
  }

  /** The idempotency key: one job per URI and operation. */
  function KeyOf(uri: Uri, operation: Operation): Key
  {
    uri + ":" + match operation
                case ArchiveOperation => "Archive"
                case DeleteOperation => "Delete"
                case ColdStorageOperation => "ColdStorage"
  }

  /** `FileLifecycleJournal`: the durable map from idempotency keys to jobs. */
  class Journal {
    var jobs: map<Key, Job>

    constructor ()
      ensures jobs == map[]
    {
      jobs := map[];
    }

    /** The first job submitted under a key stays. */
    method Upsert(key: Key, job: Job) returns (kept: Job)
      modifies this
      ensures jobs == if key in old(jobs) then old(jobs) else old(jobs)[key := job]
      ensures kept == jobs[key]
      ensures Lookup(jobs, key) == LifecycleModel.Upsert(old(Lookup(jobs, key)), job)
    {
      if key !in jobs {
        jobs := jobs[key := job];
      }
      kept := jobs[key];
    }

    /** Compare the revision, bump the caller's copy, write the file; `fate` is how the write went. */
    method Update(key: Key, job: Job, fate: Fate) returns (saved: Job, ok: bool)
      modifies this
      ensures Saved(Lookup(jobs, key), saved, ok) == Save(old(Lookup(jobs, key)), job, fate)
      ensures jobs - {key} == old(jobs) - {key}
      ensures ok <==> fate.Fine? && key in old(jobs) && old(jobs)[key].revision == job.revision
      ensures ok ==> saved == job.(revision := job.revision + 1) && jobs == old(jobs)[key := saved]
      ensures fate.Failed? || fate.Crash? || fate.RevisionOnly? ==> jobs == old(jobs)
    {
      saved, ok := job, false;
      if fate.Failed? || fate.Crash? || key !in jobs || jobs[key].revision != job.revision {
        return;
      }
      saved := job.(revision := job.revision + 1);
      if !fate.RevisionOnly? {
        jobs := jobs[key := saved];
        ok := fate.Fine?;
      }
    }

    /** A due, unfinished job whose lease has run out is leased to `owner`. */
    method Claim(key: Key, owner: nat, now: int) returns (claimed: Option<Job>)
      modifies this
      ensures claimed.Some? <==>
                && key in old(jobs) && old(jobs)[key].nextAttemptAt <= now && Unfinished(old(jobs)[key])
                && (old(jobs)[key].leaseUntil.None? || old(jobs)[key].leaseUntil.value <= now)
      ensures claimed.Some? <==> key in old(jobs) && Claimable(old(jobs)[key], now)
      ensures claimed.Some? ==>
                && claimed.value.leaseOwner == Some(owner) && claimed.value.leaseUntil == Some(now + 30)
                && claimed.value.revision == old(jobs)[key].revision + 1
      ensures claimed.Some? ==>
              claimed.value == ClaimedJob(old(jobs)[key], owner, now) && jobs == old(jobs)[key := claimed.value]
      ensures claimed.None? ==> jobs == old(jobs)
    {
      claimed := None;
      if key in jobs {
        var job := jobs[key];
        if job.nextAttemptAt > now || Terminal(job.state) || (job.leaseUntil.Some? && job.leaseUntil.value > now) {
          return;
        }
        job := job.(leaseOwner := Some(owner), leaseUntil := Some(now + LEASE_SECONDS), revision := job.revision + 1);
        jobs := jobs[key := job];
        claimed := Some(job);
      }
    }

    /** The keys a later `Claim` at the same instant would get. */
    method Recoverable(now: int) returns (keys: set<Key>)
      ensures keys == set k | k in jobs && Claimable(jobs[k], now)
      ensures forall k :: k in keys <==>
                && k in jobs && jobs[k].nextAttemptAt <= now && Unfinished(jobs[k])
                && (jobs[k].leaseUntil.None? || jobs[k].leaseUntil.value <= now)
    {
      keys := {};
      var rest := jobs.Keys;
      while rest != {}
        invariant rest <= jobs.Keys
        invariant keys == set k | k in jobs && k !in rest && Claimable(jobs[k], now)
        decreases |rest|
      {
        var k :| k in rest;
        var job := jobs[k];
        if (job.state.Pending? || job.state.Running? || job.state.Retryable?) && job.nextAttemptAt <= now
           && (job.leaseUntil.None? || job.leaseUntil.value <= now) {
          keys := keys + {k};
        }
        rest := rest - {k};
      }
    }
  }

  /** `FileColdStorage`: write-once manifests. */
  class ColdStorage {
    var files: map<Key, Manifest>

    constructor ()
      ensures files == map[]
    {
      files := map[];
    }

    method PutManifest(key: Key, m: Manifest, fate: Fate) returns (ok: bool)
      modifies this
      ensures Put(Lookup(files, key), ok) == LifecycleModel.PutManifest(old(Lookup(files, key)), m, fate)
      ensures files - {key} == old(files) - {key}
      ensures key in old(files) ==> files == old(files)
    {
      ok := false;
      if fate.Fine? || fate.AppliedButFailed? {
        if key in files {
          ok := files[key] == m;
        } else {
          files := files[key := m];
          ok := true;
        }
        ok := ok && fate.Fine?;
      }
    }
  }

  /** The content, graph, vector and blob stores. */
  class Stores {
    var backend: Backend

    constructor (b: Backend)
      ensures backend == b
    {
      backend := b;
    }
  }

  /** How a part of an attempt ended. */
  datatype Ending = Done | Broken | Crashed

  class Executor {
    const journal: Journal
    const cold: ColdStorage
    const stores: Stores
    const env: Env
    const fate: nat -> Fate
    const clock: nat -> int
    var tick: nat

    constructor (journal: Journal, cold: ColdStorage, stores: Stores, env: Env, fate: nat -> Fate, clock: nat -> int)
      ensures this.journal == journal && this.cold == cold && this.stores == stores
      ensures this.env == env && this.fate == fate && this.clock == clock && tick == 0
    {
      this.journal, this.cold, this.stores := journal, cold, stores;
      this.env, this.fate, this.clock := env, fate, clock;
      tick := 0;
    }

    /** The state machine's view of one key, with no worker alive. */
    ghost function View(key: Key): State
      reads this, journal, cold, stores
    {
      State(Lookup(journal.jobs, key), Lookup(cold.files, key), stores.backend, map[])
    }

    /** The same with one worker. */
    ghost function At(key: Key, w: nat, k: Worker): State
      reads this, journal, cold, stores
    {
      Replace(View(key), w, k)
    }

    /** Where the machine is after a part of an attempt. */
    ghost function After(key: Key, w: nat, ending: Ending, job: Job): State
      reads this, journal, cold, stores
    {
      match ending
      case Done => At(key, w, Phase(job))
      case Broken => At(key, w, Failing(job))
      case Crashed => View(key)
    }

    /** Other jobs' records and manifests are not touched. */
    twostate predicate OtherKeysKept(key: Key)
      reads this, journal, cold
    {
      journal.jobs - {key} == old(journal.jobs) - {key} && cold.files - {key} == old(cold.files) - {key}
    }

    /** One await of `w` per tick from `from` up to `to`, in order, each with the fate and the instant of its tick. */
    ghost predicate Awaited(trace: seq<Action>, w: nat, from: nat, to: nat)
    {
      && from + |trace| == to
      && forall i :: 0 <= i < |trace| ==> trace[i] == Work(w, fate(from + i), clock(from + i))
    }

    /** From `s` a trace of awaits leads to `t`. */
    ghost predicate Leads(s: State, trace: seq<Action>, w: nat, from: nat, to: nat, t: State)
    {
      Awaited(trace, w, from, to) && Run(s, trace, env) == t
    }

    lemma LeadsOneMore(s: State, trace: seq<Action>, w: nat, from: nat, to: nat, here: State)
      requires Leads(s, trace, w, from, to, here)
      ensures var a := Work(w, fate(to), clock(to)); Leads(s, trace + [a], w, from, to + 1, Step(here, a, env))
    {
      RunMore(s, trace, Work(w, fate(to), clock(to)), env);
    }

    lemma Joined(s: State, trace: seq<Action>, more: seq<Action>, w: nat, from: nat, to: nat)
      requires Awaited(trace, w, from, from + |trace|) && Awaited(more, w, from + |trace|, to)
      ensures Leads(s, trace + more, w, from, to, Run(Run(s, trace, env), more, env))
    {
      RunAppend(s, trace, more, env);
    }

    method Await() returns (f: Fate, now: int)
      modifies this`tick
      ensures f == fate(old(tick)) && now == clock(old(tick)) && tick == old(tick) + 1
    {
      f, now := fate(tick), clock(tick);
      tick := tick + 1;
    }

    /** A journal update in the middle of an attempt: the end of every phase. */
    method Checkpoint(key: Key, w: nat, job: Job) returns (ending: Ending, next: Job, ghost trace: seq<Action>)
      modifies this`tick, journal
      ensures Leads(old(At(key, w, Commit(job))), trace, w, old(tick), tick, After(key, w, ending, next))
      ensures ending.Done? ==> next == job.(revision := job.revision + 1)
      ensures OtherKeysKept(key)
    {
      var f, now := Await();
      trace := [Work(w, f, now)];
      next := job;
      if f.Crash? { ending := Crashed; Alone(old(At(key, w, Commit(job))), w); return; }
      var ok;
      next, ok := journal.Update(key, job, f);
      ending := if ok then Done else Broken;
    }

    /** Snapshot the entry, its blobs, its edges and its vector, and store them before anything is erased. */
    method StoreManifest(key: Key, w: nat, job: Job) returns (ending: Ending, next: Job, ghost trace: seq<Action>)
      requires !job.checkpoint.manifest
      modifies this`tick, journal, cold
      ensures Leads(old(At(key, w, Phase(job))), trace, w, old(tick), tick, After(key, w, ending, next))
      ensures ending.Done? ==>
              next == job.(revision := job.revision + 1, checkpoint := job.checkpoint.(manifest := true))
      ensures OtherKeysKept(key)
    {
      ghost var s0 := At(key, w, Phase(job));
      next := job;
      var entry;
      ending, entry := ReadEntry(key, w, job);
      trace := [Work(w, fate(old(tick)), clock(old(tick)))];
      if !ending.Done? { return; }
      ghost var more;
      ending, next, more := Snapshot(key, w, job, entry.value);
      Joined(s0, trace, more, w, old(tick), tick);
      trace := trace + more;
    }

    method ReadEntry(key: Key, w: nat, job: Job) returns (ending: Ending, entry: Option<Entry>)
      requires !job.checkpoint.manifest
      modifies this`tick
      ensures tick == old(tick) + 1 && (ending.Done? ==> entry.Some?)
      ensures Step(old(At(key, w, Phase(job))), Work(w, fate(old(tick)), clock(old(tick))), env)
           == if ending.Done? then At(key, w, HasEntry(job, entry.value, [])) else After(key, w, ending, job)
    {
      Alone(At(key, w, Phase(job)), w);
      var f, now := Await();
      if f.Crash? { return Crashed, None; }
      if !f.Fine? || job.uri !in stores.backend.content { return Broken, None; }
      return Done, Some(stores.backend.content[job.uri]);
    }

    method Snapshot(key: Key, w: nat, job: Job, entry: Entry)
      returns (ending: Ending, next: Job, ghost trace: seq<Action>)
      modifies this`tick, journal, cold
      ensures Leads(old(At(key, w, HasEntry(job, entry, []))), trace, w, old(tick), tick, After(key, w, ending, next))
      ensures ending.Done? ==>
              next == job.(revision := job.revision + 1, checkpoint := job.checkpoint.(manifest := true))
      ensures OtherKeysKept(key)
    {
      ghost var s0 := At(key, w, HasEntry(job, entry, []));
      next := job;
      var fetched;
      ending, fetched, trace := FetchBlobs(key, w, job, entry);
      if !ending.Done? { return; }
      ghost var more;
      ending, next, more := ListAndPut(key, w, job, entry, fetched);
      Joined(s0, trace, more, w, old(tick), tick);
      trace := trace + more;
    }

    /** Fetch every blob the entry refers to, in order. */
    method FetchBlobs(key: Key, w: nat, job: Job, entry: Entry)
      returns (ending: Ending, fetched: seq<(BlobRef, Bytes)>, ghost trace: seq<Action>)
      modifies this`tick
      ensures Leads(old(At(key, w, HasEntry(job, entry, []))), trace, w, old(tick), tick,
                    if ending.Done? then At(key, w, HasEntry(job, entry, fetched)) else After(key, w, ending, job))
      ensures ending.Done? ==> |fetched| == |CollectBlobs(entry.payload)|
    {
      ghost var s0 := At(key, w, HasEntry(job, entry, []));
      fetched, trace, ending := [], [], Done;
      while |fetched| < |CollectBlobs(entry.payload)|
        invariant |fetched| <= |CollectBlobs(entry.payload)| && ending.Done?
        invariant Leads(s0, trace, w, old(tick), tick, At(key, w, HasEntry(job, entry, fetched)))
        decreases |CollectBlobs(entry.payload)| - |fetched|
      {
        LeadsOneMore(s0, trace, w, old(tick), tick, At(key, w, HasEntry(job, entry, fetched)));
        trace := trace + [Work(w, fate(tick), clock(tick))];
        var data;
        ending, data := FetchBlob(key, w, job, entry, fetched);
        if !ending.Done? { return; }
        fetched := fetched + [(CollectBlobs(entry.payload)[|fetched|], data)];
      }
    }

    method FetchBlob(key: Key, w: nat, job: Job, entry: Entry, fetched: seq<(BlobRef, Bytes)>)
      returns (ending: Ending, data: Bytes)
      requires |fetched| < |CollectBlobs(entry.payload)|
      modifies this`tick
      ensures tick == old(tick) + 1
      ensures Step(old(At(key, w, HasEntry(job, entry, fetched))), Work(w, fate(old(tick)), clock(old(tick))), env)
           == if ending.Done? then At(key, w,
             HasEntry(job, entry, fetched + [(CollectBlobs(entry.payload)[|fetched|], data)]))
              else After(key, w, ending, job)
    {
      Alone(At(key, w, HasEntry(job, entry, fetched)), w);
      var r := CollectBlobs(entry.payload)[|fetched|];
      var f, now := Await();
      if f.Crash? { return Crashed, []; }
      if !f.Fine? || r.hash !in stores.backend.blobs { return Broken, []; }
      return Done, stores.backend.blobs[r.hash];
    }

    method ListAndPut(key: Key, w: nat, job: Job, entry: Entry, fetched: seq<(BlobRef, Bytes)>)
      returns (ending: Ending, next: Job, ghost trace: seq<Action>)
      requires |fetched| == |CollectBlobs(entry.payload)|
      modifies this`tick, journal, cold
      ensures Leads(old(At(key, w, HasEntry(job, entry, fetched))), trace, w, old(tick), tick,
              After(key, w, ending, next))
      ensures ending.Done? ==>
              next == job.(revision := job.revision + 1, checkpoint := job.checkpoint.(manifest := true))
      ensures OtherKeysKept(key)
    {
      ghost var s0 := At(key, w, HasEntry(job, entry, fetched));
      next := job;
      var f, now := Await();
      trace := [Work(w, f, now)];
      if f.Crash? { ending := Crashed; Alone(s0, w); return; }
      if !f.Fine? { ending := Broken; return; }
      var edges := env.list(Touching(stores.backend.edges, job.uri));
      assert At(key, w, HasEdges(job, entry, fetched, edges)) == Step(s0, trace[0], env);
      ghost var more;
      ending, next, more := ReadVectorAndPut(key, w, job, entry, fetched, edges);
      Joined(s0, trace, more, w, old(tick), tick);
      trace := trace + more;
    }

    method ReadVectorAndPut(key: Key, w: nat, job: Job, entry: Entry, fetched: seq<(BlobRef, Bytes)>, edges: seq<Edge>)
      returns (ending: Ending, next: Job, ghost trace: seq<Action>)
      modifies this`tick, journal, cold
      ensures Leads(old(At(key, w, HasEdges(job, entry, fetched, edges))), trace, w, old(tick), tick,
              After(key, w, ending, next))
      ensures ending.Done? ==>
              next == job.(revision := job.revision + 1, checkpoint := job.checkpoint.(manifest := true))
      ensures OtherKeysKept(key)
    {
      ghost var s0 := At(key, w, HasEdges(job, entry, fetched, edges));
      next := job;
      var f, now := Await();
      trace := [Work(w, f, now)];
      if f.Crash? { ending := Crashed; Alone(s0, w); return; }
      if !f.Fine? { ending := Broken; return; }
      var vector := LookupPoint(stores.backend.vectors, job.uri);
      assert At(key, w, HasAll(job, entry, fetched, edges, vector)) == Step(s0, trace[0], env);
      ghost var more;
      ending, next, more := PutAndCheckpoint(key, w, job, entry, fetched, edges, vector);
      Joined(s0, trace, more, w, old(tick), tick);
      trace := trace + more;
    }

    method PutAndCheckpoint(key: Key, w: nat, job: Job, entry: Entry, fetched: seq<(BlobRef, Bytes)>,
      edges: seq<Edge>, vector: Option<Point>)
      returns (ending: Ending, next: Job, ghost trace: seq<Action>)
      modifies this`tick, journal, cold
      ensures Leads(old(At(key, w, HasAll(job, entry, fetched, edges, vector))), trace, w, old(tick), tick,
              After(key, w, ending, next))
      ensures ending.Done? ==>
              next == job.(revision := job.revision + 1, checkpoint := job.checkpoint.(manifest := true))
      ensures OtherKeysKept(key)
    {
      ghost var s0 := At(key, w, HasAll(job, entry, fetched, edges, vector));
      next := job;
      ending := Put(key, w, job, entry, fetched, edges, vector);
      trace := [Work(w, fate(old(tick)), clock(old(tick)))];
      if !ending.Done? { return; }
      ghost var more;
      ending, next, more := Checkpoint(key, w, job.(checkpoint := job.checkpoint.(manifest := true)));
      Joined(s0, trace, more, w, old(tick), tick);
      trace := trace + more;
    }

    method Put(key: Key, w: nat, job: Job, entry: Entry, fetched: seq<(BlobRef, Bytes)>, edges: seq<Edge>,
      vector: Option<Point>)
      returns (ending: Ending)
      modifies this`tick, cold
      ensures tick == old(tick) + 1
      ensures Step(old(At(key, w, HasAll(job, entry, fetched, edges, vector))),
              Work(w, fate(old(tick)), clock(old(tick))), env)
           == if ending.Done? then At(key, w, Commit(job.(checkpoint := job.checkpoint.(manifest := true))))
             else After(key, w, ending, job)
      ensures cold.files - {key} == old(cold.files) - {key}
    {
      Alone(At(key, w, HasAll(job, entry, fetched, edges, vector)), w);
      var f, now := Await();
      if f.Crash? { return Crashed; }
      var stored := cold.PutManifest(key, Manifest(job.id, entry, fetched, edges, vector, now), f);
      return if stored then Done else Broken;
    }

    method EraseVector(key: Key, w: nat, job: Job) returns (ending: Ending, next: Job, ghost trace: seq<Action>)
      requires job.checkpoint.manifest && !job.checkpoint.vector
      modifies this`tick, journal, stores
      ensures Leads(old(At(key, w, Phase(job))), trace, w, old(tick), tick, After(key, w, ending, next))
      ensures ending.Done? ==> next == job.(revision := job.revision + 1, checkpoint := job.checkpoint.(vector := true))
      ensures OtherKeysKept(key)
    {
      ghost var s0 := At(key, w, Phase(job));
      next := job;
      ending := DeleteVector(key, w, job);
      trace := [Work(w, fate(old(tick)), clock(old(tick)))];
      if !ending.Done? { return; }
      ghost var more;
      ending, next, more := Checkpoint(key, w, job.(checkpoint := job.checkpoint.(vector := true)));
      Joined(s0, trace, more, w, old(tick), tick);
      trace := trace + more;
    }

    method DeleteVector(key: Key, w: nat, job: Job) returns (ending: Ending)
      requires job.checkpoint.manifest && !job.checkpoint.vector
      modifies this`tick, stores
      ensures tick == old(tick) + 1
      ensures Step(old(At(key, w, Phase(job))), Work(w, fate(old(tick)), clock(old(tick))), env)
           == if ending.Done? then At(key, w, Commit(job.(checkpoint := job.checkpoint.(vector := true))))
             else After(key, w, ending, job)
    {
      Alone(At(key, w, Phase(job)), w);
      var f, now := Await();
      if f.Crash? { return Crashed; }
      if Applies(f) { stores.backend := stores.backend.(vectors := stores.backend.vectors - {job.uri}); }
      return if f.Fine? then Done else Broken;
    }

    method EraseContent(key: Key, w: nat, job: Job) returns (ending: Ending, next: Job, ghost trace: seq<Action>)
      requires job.checkpoint.manifest && job.checkpoint.vector && job.checkpoint.graph && !job.checkpoint.content
      modifies this`tick, journal, stores
      ensures Leads(old(At(key, w, Phase(job))), trace, w, old(tick), tick, After(key, w, ending, next))
      ensures ending.Done? ==>
              next == job.(revision := job.revision + 1, checkpoint := job.checkpoint.(content := true))
      ensures OtherKeysKept(key)
    {
      ghost var s0 := At(key, w, Phase(job));
      next := job;
      ending := DeleteEntry(key, w, job);
      trace := [Work(w, fate(old(tick)), clock(old(tick)))];
      if !ending.Done? { return; }
      ghost var more;
      ending, next, more := Checkpoint(key, w, job.(checkpoint := job.checkpoint.(content := true)));
      Joined(s0, trace, more, w, old(tick), tick);
      trace := trace + more;
    }

    method DeleteEntry(key: Key, w: nat, job: Job) returns (ending: Ending)
      requires job.checkpoint.manifest && job.checkpoint.vector && job.checkpoint.graph && !job.checkpoint.content
      modifies this`tick, stores
      ensures tick == old(tick) + 1
      ensures Step(old(At(key, w, Phase(job))), Work(w, fate(old(tick)), clock(old(tick))), env)
           == if ending.Done? then At(key, w, Commit(job.(checkpoint := job.checkpoint.(content := true))))
             else After(key, w, ending, job)
    {
      Alone(At(key, w, Phase(job)), w);
      var f, now := Await();
      if f.Crash? { return Crashed; }
      if env.strict && job.uri !in stores.backend.content { return Broken; }
      if Applies(f) { stores.backend := stores.backend.(content := stores.backend.content - {job.uri}); }
      return if f.Fine? then Done else Broken;
    }

    method RemoveEdge(key: Key, w: nat, job: Job, left: seq<Edge>) returns (ending: Ending)
      requires left != []
      modifies this`tick, stores
      ensures tick == old(tick) + 1
      ensures Step(old(At(key, w, EdgesLeft(job, left))), Work(w, fate(old(tick)), clock(old(tick))), env)
           == if ending.Done? then At(key, w, EdgesLeft(job, left[1..])) else After(key, w, ending, job)
    {
      Alone(At(key, w, EdgesLeft(job, left)), w);
      var f, now := Await();
      if f.Crash? { return Crashed; }
      if Applies(f) { stores.backend := stores.backend.(edges := RemovePair(stores.backend.edges, left[0])); }
      return if f.Fine? then Done else Broken;
    }

    method RemoveEdges(key: Key, w: nat, job: Job, items: seq<Edge>) returns (ending: Ending, ghost trace: seq<Action>)
      modifies this`tick, stores
      ensures Leads(old(At(key, w, EdgesLeft(job, items))), trace, w, old(tick), tick,
                    if ending.Done? then At(key, w, EdgesLeft(job, [])) else After(key, w, ending, job))
    {
      ghost var s0 := At(key, w, EdgesLeft(job, items));
      var left := items;
      trace, ending := [], Done;
      while left != []
        invariant ending.Done? && Leads(s0, trace, w, old(tick), tick, At(key, w, EdgesLeft(job, left)))
        decreases |left|
      {
        LeadsOneMore(s0, trace, w, old(tick), tick, At(key, w, EdgesLeft(job, left)));
        trace := trace + [Work(w, fate(tick), clock(tick))];
        ending := RemoveEdge(key, w, job, left);
        if !ending.Done? { return; }
        left := left[1..];
      }
    }

    /** Remove every edge the manifest lists; a restart reads the manifest again. */
    method EraseEdges(key: Key, w: nat, job: Job) returns (ending: Ending, next: Job, ghost trace: seq<Action>)
      requires job.checkpoint.manifest && job.checkpoint.vector && !job.checkpoint.graph
      modifies this`tick, journal, stores
      ensures Leads(old(At(key, w, Phase(job))), trace, w, old(tick), tick, After(key, w, ending, next))
      ensures ending.Done? ==> next == job.(revision := job.revision + 1, checkpoint := job.checkpoint.(graph := true))
      ensures OtherKeysKept(key)
    {
      ghost var s0 := At(key, w, Phase(job));
      next := job;
      var f, now := Await();
      trace := [Work(w, f, now)];
      if f.Crash? { ending := Crashed; Alone(s0, w); return; }
      if !f.Fine? || key !in cold.files { ending := Broken; return; }
      var todo := cold.files[key].edges;
      assert At(key, w, EdgesLeft(job, todo)) == Step(s0, trace[0], env);
      ghost var more;
      ending, next, more := EraseListed(key, w, job, todo);
      Joined(s0, trace, more, w, old(tick), tick);
      trace := trace + more;
    }

    method EraseListed(key: Key, w: nat, job: Job, items: seq<Edge>)
      returns (ending: Ending, next: Job, ghost trace: seq<Action>)
      modifies this`tick, journal, stores
      ensures Leads(old(At(key, w, EdgesLeft(job, items))), trace, w, old(tick), tick, After(key, w, ending, next))
      ensures ending.Done? ==> next == job.(revision := job.revision + 1, checkpoint := job.checkpoint.(graph := true))
      ensures OtherKeysKept(key)
    {
      ghost var s0 := At(key, w, EdgesLeft(job, items));
      next := job;
      ending, trace := RemoveEdges(key, w, job, items);
      if !ending.Done? { return; }
      ghost var more;
      ending, next, more := Checkpoint(key, w, job.(checkpoint := job.checkpoint.(graph := true)));
      Joined(s0, trace, more, w, old(tick), tick);
      trace := trace + more;
    }

    method DeleteBlob(key: Key, w: nat, job: Job, left: seq<(BlobRef, Bytes)>) returns (ending: Ending)
      requires left != []
      modifies this`tick, stores
      ensures tick == old(tick) + 1
      ensures Step(old(At(key, w, BlobsLeft(job, left))), Work(w, fate(old(tick)), clock(old(tick))), env)
           == if ending.Done? then At(key, w, BlobsLeft(job, left[1..])) else After(key, w, ending, job)
    {
      Alone(At(key, w, BlobsLeft(job, left)), w);
      var f, now := Await();
      if f.Crash? { return Crashed; }
      if Applies(f) { stores.backend := stores.backend.(blobs := stores.backend.blobs - {left[0].0.hash}); }
      return if f.Fine? then Done else Broken;
    }

    method DeleteBlobs(key: Key, w: nat, job: Job, items: seq<(BlobRef, Bytes)>)
      returns (ending: Ending, ghost trace: seq<Action>)
      modifies this`tick, stores
      ensures Leads(old(At(key, w, BlobsLeft(job, items))), trace, w, old(tick), tick,
                    if ending.Done? then At(key, w, BlobsLeft(job, [])) else After(key, w, ending, job))
    {
      ghost var s0 := At(key, w, BlobsLeft(job, items));
      var left := items;
      trace, ending := [], Done;
      while left != []
        invariant ending.Done? && Leads(s0, trace, w, old(tick), tick, At(key, w, BlobsLeft(job, left)))
        decreases |left|
      {
        LeadsOneMore(s0, trace, w, old(tick), tick, At(key, w, BlobsLeft(job, left)));
        trace := trace + [Work(w, fate(tick), clock(tick))];
        ending := DeleteBlob(key, w, job, left);
        if !ending.Done? { return; }
        left := left[1..];
      }
    }

    method EraseBlobs(key: Key, w: nat, job: Job) returns (ending: Ending, next: Job, ghost trace: seq<Action>)
      requires job.checkpoint.manifest && job.checkpoint.vector && job.checkpoint.graph && job.checkpoint.content
               && !job.checkpoint.blobs
      modifies this`tick, journal, stores
      ensures Leads(old(At(key, w, Phase(job))), trace, w, old(tick), tick, After(key, w, ending, next))
      ensures ending.Done? ==> next == job.(revision := job.revision + 1, checkpoint := job.checkpoint.(blobs := true))
      ensures OtherKeysKept(key)
    {
      ghost var s0 := At(key, w, Phase(job));
      next := job;
      var f, now := Await();
      trace := [Work(w, f, now)];
      if f.Crash? { ending := Crashed; Alone(s0, w); return; }
      if !f.Fine? || key !in cold.files { ending := Broken; return; }
      var doomed := cold.files[key].blobs;
      assert At(key, w, BlobsLeft(job, doomed)) == Step(s0, trace[0], env);
      ghost var more;
      ending, next, more := DeleteListed(key, w, job, doomed);
      Joined(s0, trace, more, w, old(tick), tick);
      trace := trace + more;
    }

    method DeleteListed(key: Key, w: nat, job: Job, items: seq<(BlobRef, Bytes)>)
      returns (ending: Ending, next: Job, ghost trace: seq<Action>)
      modifies this`tick, journal, stores
      ensures Leads(old(At(key, w, BlobsLeft(job, items))), trace, w, old(tick), tick, After(key, w, ending, next))
      ensures ending.Done? ==> next == job.(revision := job.revision + 1, checkpoint := job.checkpoint.(blobs := true))
      ensures OtherKeysKept(key)
    {
      ghost var s0 := At(key, w, BlobsLeft(job, items));
      next := job;
      ending, trace := DeleteBlobs(key, w, job, items);
      if !ending.Done? { return; }
      ghost var more;
      ending, next, more := Checkpoint(key, w, job.(checkpoint := job.checkpoint.(blobs := true)));
      Joined(s0, trace, more, w, old(tick), tick);
      trace := trace + more;
    }

    /** `execute_phases`: every phase whose checkpoint is missing, in order. */
    method ExecutePhases(key: Key, w: nat, start: Job) returns (ending: Ending, job: Job, ghost trace: seq<Action>)
      requires Ordered(start.checkpoint)
      modifies this`tick, journal, cold, stores
      ensures Leads(old(At(key, w, Phase(start))), trace, w, old(tick), tick, After(key, w, ending, job))
      ensures ending.Done? ==> job.checkpoint == ALL_FLAGS && !job.state.Succeeded? == !start.state.Succeeded?
      ensures OtherKeysKept(key)
    {
      ghost var s0 := At(key, w, Phase(start));
      ending, job, trace := Done, start, [];
      if !job.checkpoint.manifest { ending, job, trace := StoreManifest(key, w, job); }
      if ending.Done? {
        ghost var more;
        ending, job, more := FirstErasures(key, w, job);
        Joined(s0, trace, more, w, old(tick), tick);
        trace := trace + more;
      }
      if ending.Done? {
        ghost var more;
        ending, job, more := LastErasures(key, w, job);
        Joined(s0, trace, more, w, old(tick), tick);
        trace := trace + more;
      }
    }

    /** The vector and the edges. */
    method FirstErasures(key: Key, w: nat, start: Job) returns (ending: Ending, job: Job, ghost trace: seq<Action>)
      requires Ordered(start.checkpoint) && start.checkpoint.manifest
      modifies this`tick, journal, stores
      ensures Leads(old(At(key, w, Phase(start))), trace, w, old(tick), tick, After(key, w, ending, job))
      ensures ending.Done? ==>
              Ordered(job.checkpoint) && job.checkpoint.graph && !job.state.Succeeded? == !start.state.Succeeded?
      ensures OtherKeysKept(key)
    {
      ghost var s0 := At(key, w, Phase(start));
      ending, job, trace := Done, start, [];
      if !job.checkpoint.vector { ending, job, trace := EraseVector(key, w, job); }
      if ending.Done? && !job.checkpoint.graph {
        ghost var more;
        ending, job, more := EraseEdges(key, w, job);
        Joined(s0, trace, more, w, old(tick), tick);
        trace := trace + more;
      }
    }

    /** The entry and the blobs. */
    method LastErasures(key: Key, w: nat, start: Job) returns (ending: Ending, job: Job, ghost trace: seq<Action>)
      requires Ordered(start.checkpoint) && start.checkpoint.graph
      modifies this`tick, journal, stores
      ensures Leads(old(At(key, w, Phase(start))), trace, w, old(tick), tick, After(key, w, ending, job))
      ensures ending.Done? ==> job.checkpoint == ALL_FLAGS && !job.state.Succeeded? == !start.state.Succeeded?
      ensures OtherKeysKept(key)
    {
      ghost var s0 := At(key, w, Phase(start));
      ending, job, trace := Done, start, [];
      if !job.checkpoint.content { ending, job, trace := EraseContent(key, w, job); }
      if ending.Done? && !job.checkpoint.blobs {
        ghost var more;
        ending, job, more := EraseBlobs(key, w, job);
        Joined(s0, trace, more, w, old(tick), tick);
        trace := trace + more;
      }
    }

    /** `execute`: mark the attempt running, run the phases, record the outcome and give the lease back. */
    method Execute(key: Key, w: nat, start: Job) returns (reported: bool, ghost trace: seq<Action>)
      requires Ordered(start.checkpoint)
      modifies this`tick, journal, cold, stores
      ensures Leads(old(At(key, w, Claimed(start))), trace, w, old(tick), tick, View(key))
      ensures reported ==>
              key in journal.jobs && journal.jobs[key].leaseUntil.None? && !journal.jobs[key].state.Pending?
      ensures OtherKeysKept(key)
    {
      ghost var s0 := At(key, w, Claimed(start));
      reported := false;
      var job, ok := Begin(key, w, start);
      trace := [Work(w, fate(old(tick)), clock(old(tick)))];
      if !ok { return; }
      ghost var more;
      reported, more := Proceed(key, w, job);
      Joined(s0, trace, more, w, old(tick), tick);
      trace := trace + more;
    }

    /** The first journal update of an attempt; an attempt that cannot store it is over. */
    method Begin(key: Key, w: nat, start: Job) returns (job: Job, ok: bool)
      modifies this`tick, journal
      ensures tick == old(tick) + 1
      ensures Step(old(At(key, w, Claimed(start))), Work(w, fate(old(tick)), clock(old(tick))), env)
           == if ok then At(key, w, Phase(job)) else View(key)
      ensures ok ==> job == Running1(start).(revision := start.revision + 1)
      ensures OtherKeysKept(key)
    {
      Alone(At(key, w, Claimed(start)), w);
      var f, now := Await();
      job, ok := Running1(start), false;
      if f.Crash? { return; }
      job, ok := journal.Update(key, job, f);
      Alone(At(key, w, Claimed(start)), w);
    }

    /** The phases, and the record of how they went. */
    method Proceed(key: Key, w: nat, start: Job) returns (reported: bool, ghost trace: seq<Action>)
      requires Ordered(start.checkpoint)
      modifies this`tick, journal, cold, stores
      ensures Leads(old(At(key, w, Phase(start))), trace, w, old(tick), tick, View(key))
      ensures reported ==>
              key in journal.jobs && journal.jobs[key].leaseUntil.None? && !journal.jobs[key].state.Pending?
      ensures OtherKeysKept(key)
    {
      ghost var s0 := At(key, w, Phase(start));
      reported := false;
      var ending, job;
      ending, job, trace := ExecutePhases(key, w, start);
      if ending.Crashed? { return; }
      ghost var last;
      reported, last := Conclude(key, w, ending, job);
      Joined(s0, trace, last, w, old(tick), tick);
      trace := trace + last;
    }

    /** The final journal update releases the lease and records how the attempt went. */
    method Conclude(key: Key, w: nat, ending: Ending, job: Job) returns (reported: bool, ghost trace: seq<Action>)
      requires !ending.Crashed? && (ending.Done? ==> job.checkpoint == ALL_FLAGS)
      modifies this`tick, journal
      ensures Leads(old(After(key, w, ending, job)), trace, w, old(tick), tick, View(key))
      ensures reported ==>
              key in journal.jobs && journal.jobs[key].leaseUntil.None? && !journal.jobs[key].state.Pending?
      ensures OtherKeysKept(key)
    {
      ghost var s0 := After(key, w, ending, job);
      reported := false;
      var f, now := Await();
      trace := [Work(w, f, now)];
      Alone(s0, w);
      if f.Crash? { return; }
      var last := if ending.Done? then FinishedJob(job) else FailedJob(job, now);
      var saved;
      saved, reported := journal.Update(key, last, f);
      assert View(key) == Step(s0, trace[0], env);
    }

    /**
      `submit`: an action without a destructive execution is refused; otherwise the first job
      filed under its key is the one that stays, however often it is submitted.
    */
    method Submit(id: nat, uri: Uri, action: LifecycleAction) returns (r: Result<Job, SubmitError>)
      modifies this`tick, journal
      ensures r == Err(Unsupported) <==> OperationOf(action).None?
      ensures OperationOf(action).None? ==> journal.jobs == old(journal.jobs)
      ensures OperationOf(action).Some? ==>
                var key := KeyOf(uri, OperationOf(action).value);
                && OtherKeysKept(key)
                && View(key) == (if Applies(fate(old(tick)))
                                 then Step(old(View(key)), Action.Submit(id, uri, clock(old(tick))), env)
                                 else old(View(key)))
                && (r.Ok? <==> fate(old(tick)).Fine?)
                && (r.Ok? ==>
                  && key in journal.jobs && r.value == journal.jobs[key]
                  && r.value == if key in old(journal.jobs) then old(journal.jobs)[key]
                                else NewJob(id, uri, clock(old(tick))))
      ensures r != Err(Unsupported) <==>
                action == Archive || action == Delete || action == Downgrade(L0) || action == Downgrade(L1)
    {
      var operation := OperationOf(action);
      if operation.None? { return Err(Unsupported); }
      var f, now := Await();
      if !Applies(f) { return Err(NotStored); }
      var job := journal.Upsert(KeyOf(uri, operation.value), NewJob(id, uri, now));
      r := if f.Fine? then Ok(job) else Err(NotStored);
    }

    /**
      `run_pending` for one key: a claim followed by one attempt.  Whatever happens, the stores
      and the record stay within the invariants; if no await fails the URI is erased exactly,
      unless the job is in one of the two windows.
    */
    method RunPending(key: Key, owner: nat, ghost origin: Backend) returns (claimed: bool, ghost trace: seq<Action>)
      requires Inv(View(key), origin) && Backed(View(key), origin) && WellFormed(origin, env)
      modifies this`tick, journal, cold, stores
      ensures claimed <==>
                && key in old(journal.jobs) && Unfinished(old(journal.jobs)[key])
                && old(journal.jobs)[key].nextAttemptAt <= clock(old(tick))
                && (old(journal.jobs)[key].leaseUntil.None?
                    || old(journal.jobs)[key].leaseUntil.value <= clock(old(tick)))
      ensures !claimed ==> View(key) == old(View(key)) && trace == []
      ensures claimed ==>
              |trace| > 0 && trace[0] == Claim(owner, clock(old(tick))) && Awaited(trace[1..], owner, old(tick), tick)
      ensures Run(old(View(key)), trace, env) == View(key) && Inv(View(key), origin) && Backed(View(key), origin)
      ensures && claimed && (forall t :: old(tick) <= t < tick ==> fate(t).Fine?)
              && !InWindow(old(View(key))) && !InContentWindow(old(View(key)), env)
                && Readable(origin, old(journal.jobs)[key].uri) ==>
                && key in journal.jobs && journal.jobs[key].state.Succeeded?
                && stores.backend == Erased(origin, old(journal.jobs)[key].uri)
      ensures OtherKeysKept(key)
    {
      ghost var s0, started := View(key), tick;
      var now := clock(tick);
      var job := journal.Claim(key, owner, now);
      claimed, trace := job.Some?, [];
      if claimed {
        var reported;
        ghost var s1 := At(key, owner, Claimed(job.value));
        ghost var more;
        assert s1 == Step(s0, Claim(owner, now), env);
        reported, more := Execute(key, owner, job.value);
        trace := [Claim(owner, now)] + more;
        assert trace[1..] == more;
        ClaimedRun(s0, owner, now, more, env, origin);
        CalmRun(s0, more, owner, now, started, origin);
      }
    }

    /** What follows if no tick of the attempt had a fault. */
    lemma CalmRun(s: State, more: seq<Action>, w: nat, now: int, started: nat, origin: Backend)
      requires Inv(s, origin) && Backed(s, origin) && WellFormed(origin, env)
      requires s.journal.Some? && w !in s.workers && Claimable(s.journal.value, now) && Awaited(more, w, started, tick)
      requires w !in Run(Step(s, Claim(w, now), env), more, env).workers
      ensures && (forall t :: started <= t < tick ==> fate(t).Fine?)
              && !InWindow(s) && !InContentWindow(s, env) && Readable(origin, s.journal.value.uri) ==>
                var t := Run(Step(s, Claim(w, now), env), more, env);
                && t.journal.Some? && t.journal.value.state.Succeeded?
                && s.journal.value.uri in origin.content && t.backend == Erased(origin, s.journal.value.uri)
    {
      if && (forall t :: started <= t < tick ==> fate(t).Fine?)
         && !InWindow(s) && !InContentWindow(s, env) && Readable(origin, s.journal.value.uri) {
        assert FineAwaits(more, w);
        CalmAttemptErases(s, w, now, more, env, origin);
      }
    }

    // ---------------------------------------------------------------- restore

    /** Where the machine is while a restore is between phases, or after it returned. */
    ghost function Resting(key: Key, w: nat, alive: bool, job: Job, m: Manifest): State
      reads this, journal, cold, stores
    {
      if alive then At(key, w, RestorePhase(job, m)) else View(key)
    }

    method RestoreCheckpoint(key: Key, w: nat, job: Job, m: Manifest)
      returns (alive: bool, next: Job, ghost trace: seq<Action>)
      modifies this`tick, journal
      ensures OnlyAwaits(trace, w)
      ensures Run(old(At(key, w, RestoreCommit(job, m))), trace, env) == Resting(key, w, alive, next, m)
      ensures alive ==> next == job.(revision := job.revision + 1)
      ensures alive ==> Lookup(journal.jobs, key) == Some(next)
      ensures OtherKeysKept(key)
    {
      Alone(At(key, w, RestoreCommit(job, m)), w);
      var f, now := Await();
      trace, alive, next := [Work(w, f, now)], false, job;
      if f.Crash? { return; }
      next, alive := journal.Update(key, job, f);
    }

    method PutBackBlobs(key: Key, w: nat, job: Job, m: Manifest)
      returns (alive: bool, next: Job, ghost trace: seq<Action>)
      requires !job.restore.blobs
      modifies this`tick, journal, stores
      ensures OnlyAwaits(trace, w)
      ensures Run(old(At(key, w, RestorePhase(job, m))), trace, env) == Resting(key, w, alive, next, m)
      ensures alive ==> next == job.(revision := job.revision + 1, restore := job.restore.(blobs := true))
      ensures alive ==> Lookup(journal.jobs, key) == Some(next)
      ensures OtherKeysKept(key)
    {
      ghost var s0 := At(key, w, RestorePhase(job, m));
      trace, alive, next := [Work(w, Fine, 0)], true, job;
      assert Step(s0, trace[0], env) == At(key, w, BlobsRestored(job, m, 0));
      var i := 0;
      while i < |m.blobs|
        invariant 0 <= i <= |m.blobs| && OnlyAwaits(trace, w)
        invariant Run(s0, trace, env) == At(key, w, BlobsRestored(job, m, i))
        invariant journal.jobs == old(journal.jobs)
      {
        var f, now := Await();
        RunMore(s0, trace, Work(w, f, now), env);
        Alone(At(key, w, BlobsRestored(job, m, i)), w);
        trace := trace + [Work(w, f, now)];
        if f.Crash? { alive := false; return; }
        var (r, data) := m.blobs[i];
        var written := env.digest(data);
        if Applies(f) { stores.backend := stores.backend.(blobs := stores.backend.blobs[written := data]); }
        if !f.Fine? || written != r.hash { alive := false; return; }
        i := i + 1;
      }
      ghost var more;
      alive, next, more := RestoreCheckpoint(key, w, job.(restore := job.restore.(blobs := true)), m);
      RunAppend(s0, trace, more, env);
      trace := trace + more;
    }

    /** The entry is written back, and stamped, unless it is already there; a changed entry stops the restore. */
    method PutBackEntry(key: Key, w: nat, job: Job, m: Manifest)
      returns (alive: bool, next: Job, ghost trace: seq<Action>)
      requires job.restore.blobs && !job.restore.content
      modifies this`tick, journal, stores
      ensures OnlyAwaits(trace, w)
      ensures Run(old(At(key, w, RestorePhase(job, m))), trace, env) == Resting(key, w, alive, next, m)
      ensures alive ==> next == job.(revision := job.revision + 1, restore := job.restore.(content := true))
      ensures alive ==> Lookup(journal.jobs, key) == Some(next)
      ensures alive ==>
                m.entry.uri in stores.backend.content && Rewritten(stores.backend.content[m.entry.uri], m.entry, env)
      ensures OtherKeysKept(key)
    {
      ghost var s0 := At(key, w, RestorePhase(job, m));
      Alone(s0, w);
      var f, now := Await();
      trace, alive, next := [Work(w, f, now)], false, job;
      if !f.Fine? { return; }
      if m.entry.uri in stores.backend.content {
        if stores.backend.content[m.entry.uri] != m.entry { return; }
      } else {
        ghost var s1 := At(key, w, RestoreWrite(job, m));
        assert s1 == Step(s0, trace[0], env);
        Alone(s1, w);
        f, now := Await();
        RunMore(s0, trace, Work(w, f, now), env);
        trace := trace + [Work(w, f, now)];
        if f.Crash? { return; }
        if Applies(f) { stores.backend := WriteEntry(stores.backend, m.entry, now, env); }
        if !f.Fine? { return; }
      }
      var done := job.(restore := job.restore.(content := true));
      assert Run(s0, trace, env) == At(key, w, RestoreCommit(done, m));
      ghost var more;
      alive, next, more := RestoreCheckpoint(key, w, done, m);
      RunAppend(s0, trace, more, env);
      trace := trace + more;
    }

    method PutBackEdges(key: Key, w: nat, job: Job, m: Manifest)
      returns (alive: bool, next: Job, ghost trace: seq<Action>)
      requires job.restore.blobs && job.restore.content && !job.restore.graph
      modifies this`tick, journal, stores
      ensures OnlyAwaits(trace, w)
      ensures Run(old(At(key, w, RestorePhase(job, m))), trace, env) == Resting(key, w, alive, next, m)
      ensures alive ==> next == job.(revision := job.revision + 1, restore := job.restore.(graph := true))
      ensures alive ==> Lookup(journal.jobs, key) == Some(next)
      ensures OtherKeysKept(key)
    {
      ghost var s0 := At(key, w, RestorePhase(job, m));
      trace, alive, next := [Work(w, Fine, 0)], true, job;
      assert Step(s0, trace[0], env) == At(key, w, EdgesRestored(job, m, 0));
      var i := 0;
      while i < |m.edges|
        invariant 0 <= i <= |m.edges| && OnlyAwaits(trace, w)
        invariant Run(s0, trace, env) == At(key, w, EdgesRestored(job, m, i))
        invariant journal.jobs == old(journal.jobs)
      {
        var f, now := Await();
        RunMore(s0, trace, Work(w, f, now), env);
        Alone(At(key, w, EdgesRestored(job, m, i)), w);
        trace := trace + [Work(w, f, now)];
        if f.Crash? { alive := false; return; }
        if Applies(f) { stores.backend := stores.backend.(edges := stores.backend.edges + {m.edges[i]}); }
        if !f.Fine? { alive := false; return; }
        i := i + 1;
      }
      ghost var more;
      alive, next, more := RestoreCheckpoint(key, w, job.(restore := job.restore.(graph := true)), m);
      RunAppend(s0, trace, more, env);
      trace := trace + more;
    }

    method PutBackVector(key: Key, w: nat, job: Job, m: Manifest)
      returns (alive: bool, next: Job, ghost trace: seq<Action>)
      requires job.restore.blobs && job.restore.content && job.restore.graph && !job.restore.vector
      modifies this`tick, journal, stores
      ensures OnlyAwaits(trace, w)
      ensures Run(old(At(key, w, RestorePhase(job, m))), trace, env) == Resting(key, w, alive, next, m)
      ensures alive ==> next == job.(revision := job.revision + 1, restore := job.restore.(vector := true))
      ensures alive ==> Lookup(journal.jobs, key) == Some(next)
      ensures OtherKeysKept(key)
    {
      ghost var s0 := At(key, w, RestorePhase(job, m));
      Alone(s0, w);
      trace, alive, next := [Work(w, Fine, 0)], false, job;
      if m.vector.Some? {
        var f, now := Await();
        trace := [Work(w, f, now)];
        if f.Crash? { return; }
        if Applies(f) {
          stores.backend := stores.backend.(vectors := stores.backend.vectors[m.vector.value.uri := m.vector.value]);
        }
        if !f.Fine? { return; }
      }
      var done := job.(restore := job.restore.(vector := true));
      assert Step(s0, trace[0], env) == At(key, w, RestoreCommit(done, m));
      ghost var more;
      alive, next, more := RestoreCheckpoint(key, w, done, m);
      RunAppend(s0, trace, more, env);
      trace := trace + more;
    }

    /** The phases of `restore` that are not checkpointed yet, in order. */
    method RestorePhases(key: Key, w: nat, start: Job, m: Manifest)
      returns (ok: bool, job: Job, ghost trace: seq<Action>)
      requires Lookup(journal.jobs, key) == Some(start)
      modifies this`tick, journal, stores
      ensures OnlyAwaits(trace, w)
      ensures Run(old(At(key, w, RestorePhase(start, m))), trace, env) == Resting(key, w, ok, job, m)
      ensures ok ==> Restored(job) && Lookup(journal.jobs, key) == Some(job)
      ensures OtherKeysKept(key)
    {
      ghost var s0 := At(key, w, RestorePhase(start, m));
      ok, job, trace := true, start, [];
      ghost var more;
      if !job.restore.blobs {
        ok, job, more := PutBackBlobs(key, w, job, m);
        RunAppend(s0, trace, more, env);
        trace := trace + more;
        if !ok { return; }
      }
      if !job.restore.content {
        ok, job, more := PutBackEntry(key, w, job, m);
        RunAppend(s0, trace, more, env);
        trace := trace + more;
        if !ok { return; }
      }
      if !job.restore.graph {
        ok, job, more := PutBackEdges(key, w, job, m);
        RunAppend(s0, trace, more, env);
        trace := trace + more;
        if !ok { return; }
      }
      if !job.restore.vector {
        ok, job, more := PutBackVector(key, w, job, m);
        RunAppend(s0, trace, more, env);
        trace := trace + more;
      }
    }

    /**
      `restore`: refused unless a manifest exists and the job has succeeded.  On a job whose
      checkpoints are truthful, success means the original stores up to the entry's stamp; in
      the window of a restore there is no success and nothing changes.
    */
    method Restore(key: Key, w: nat, ghost origin: Backend) returns (ok: bool, ghost trace: seq<Action>)
      requires WellFormed(origin, env)
      modifies this`tick, journal, stores
      ensures Run(old(View(key)), trace, env) == View(key)
      ensures key !in cold.files || key !in old(journal.jobs) || !old(journal.jobs)[key].state.Succeeded? ==>
                !ok && View(key) == old(View(key))
      ensures old(Restoring(View(key), origin) && Traced(View(key), env)) ==>
                && Restoring(View(key), origin) && Traced(View(key), env)
                && (ok ==> Restored(journal.jobs[key]) && UpToStamp(stores.backend, origin, journal.jobs[key].uri, env))
                && (old(InRestoreWindow(View(key))) ==> !ok && stores.backend == old(stores.backend))
      ensures OtherKeysKept(key)
    {
      ghost var s0 := View(key);
      ok, trace := false, [];
      if key !in cold.files || key !in journal.jobs || !journal.jobs[key].state.Succeeded? { return; }
      var m := cold.files[key];
      var job := journal.jobs[key];
      ghost var begun := At(key, w, RestorePhase(job, m));
      assert begun == Step(s0, BeginRestore(w), env);
      ghost var phases: seq<Action>;
      ok, job, phases := RestorePhases(key, w, job, m);
      trace := [BeginRestore(w)] + phases;
      RunAppend(s0, [BeginRestore(w)], phases, env);
      if ok {
        ghost var rested := At(key, w, RestorePhase(job, m));
        Alone(rested, w);
        RunMore(s0, trace, Work(w, Fine, 0), env);
        trace := trace + [Work(w, Fine, 0)];
        assert View(key) == Step(rested, Work(w, Fine, 0), env);
      }
      if Restoring(s0, origin) && Traced(s0, env) { RestoreOutcome(s0, trace, ok, env, origin); }
    }
  }

  lemma ClaimedRun(s: State, w: nat, now: int, more: seq<Action>, env: Env, origin: Backend)
    requires Inv(s, origin) && Backed(s, origin) && WellFormed(origin, env)
    ensures var t := Run(s, [Claim(w, now)] + more, env);
            t == Run(Step(s, Claim(w, now), env), more, env) && Inv(t, origin) && Backed(t, origin)
  {
    RunAppend(s, [Claim(w, now)], more, env);
    assert Run(s, [Claim(w, now)], env) == Step(s, Claim(w, now), env);
    RunKeepsBacked(s, [Claim(w, now)] + more, env, origin);
  }

  /** What the run of a restore has left, when nobody else was about. */
  lemma RestoreOutcome(s: State, trace: seq<Action>, ok: bool, env: Env, origin: Backend)
    requires Restoring(s, origin) && Traced(s, env) && WellFormed(origin, env) && s.workers == map[]
    requires var t := Run(s, trace, env); ok ==> t.journal.Some? && Restored(t.journal.value)
    ensures var t := Run(s, trace, env);
            && Restoring(t, origin) && Traced(t, env)
            && (ok ==> UpToStamp(t.backend, origin, t.journal.value.uri, env))
            && (InRestoreWindow(s) ==> !ok && t.backend == s.backend)
  {
    RestoringRun(s, trace, env, origin);
    RunKeepsTraced(s, trace, env, origin);
    if InRestoreWindow(s) { RestoreStuckForever(s, trace, env, origin); }
    if ok { RestoredExactly(Run(s, trace, env), env, origin); }
  }

  /** A claim outside both windows, and fault-free awaits up to the end of the attempt. */
  lemma CalmAttemptErases(s: State, w: nat, now: int, acts: seq<Action>, env: Env, origin: Backend)
    requires Inv(s, origin) && Backed(s, origin) && WellFormed(origin, env)
    requires s.journal.Some? && w !in s.workers && Claimable(s.journal.value, now)
             && Readable(origin, s.journal.value.uri)
    requires !InWindow(s) && !InContentWindow(s, env) && FineAwaits(acts, w)
    requires w !in Run(Step(s, Claim(w, now), env), acts, env).workers
    ensures var t := Run(Step(s, Claim(w, now), env), acts, env);
            && t.journal.Some? && t.journal.value.state.Succeeded?
            && s.journal.value.uri in origin.content && t.backend == Erased(origin, s.journal.value.uri)
  {
    StepKeeps(s, Claim(w, now), env, origin);
    ClaimAdvances(s, w, now, env, origin);
    FineRunErases(Step(s, Claim(w, now), env), w, acts, env, origin);
  }

  /** Every action is an await of `w`. */
  predicate OnlyAwaits(trace: seq<Action>, w: nat)
  {
    forall a :: a in trace ==> a.Work? && a.worker == w
  }

  /** The only worker leaving an empty machine behind. */
  lemma Alone(s: State, w: nat)
    ensures s.workers.Keys == {w} ==> Drop(s, w).workers == map[]
  {
  }

  lemma RunMore(s: State, acts: seq<Action>, a: Action, env: Env)
    ensures Run(s, acts + [a], env) == Step(Run(s, acts, env), a, env)
  {
    RunAppend(s, acts, [a], env);
  }

  lemma RunAppend(s: State, acts: seq<Action>, more: seq<Action>, env: Env)
    ensures Run(s, acts + more, env) == Run(Run(s, acts, env), more, env)
  {
    RunSplit(s, acts + more, |acts|, env);
    assert (acts + more)[..|acts|] == acts && (acts + more)[|acts|..] == more;
  }
}
