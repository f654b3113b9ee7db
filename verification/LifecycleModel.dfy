/**
  The durable lifecycle executor as a state machine: one journalled job for one URI, any
  number of `run_pending` workers and restore calls over it, and the five backends they share.

  Every `.await` of the executor is one `Work` action, so a crash, a lease expiry or another
  worker may come between any two of them.  The `fate` of an action says how the awaited call
  ended; a call that reports an error may still have taken effect.
*/
module LifecycleModel {
  import opened Prelude

  type Uri = string
  type Hash = string
  type Bytes = seq<bv8>

  /**
    What the backends compute: the content hash of a blob, and the order in which a set of edges
    is listed.  With `strict` the content store answers an error when it is asked to delete an
    entry that is not there.  Deleting an absent vector, edge or blob always succeeds.  What the
    content store keeps when an entry is written over another one, or over none, at a given time
    is that entry's `stamp`.
  */
  datatype Env = Env(
    digest: Bytes -> Hash,
    list: set<Edge> -> seq<Edge>,
    strict: bool,
    stamp: (Option<Entry>, Entry, int) -> Entry)

  datatype BlobRef = BlobRef(hash: Hash, size: nat, mime: string)

  /** The payload variants as far as blobs are concerned; `Text` carries none. */
  datatype Payload =
    | Text(full: string)
    | Image(raw: BlobRef)
    | Audio(raw: BlobRef)
    | Structured(data: string, schema: Option<BlobRef>)
    | Composite(parts: seq<Part>)

  datatype Part =
    | Embedded(payload: Payload)
    | Reference(target: Uri)

  datatype Entry = Entry(uri: Uri, payload: Payload, rest: string, updatedAt: int, version: nat)
  datatype Point = Point(uri: Uri, vector: seq<real>, payload: string)
  datatype Edge = Edge(from: Uri, to: Uri, kind: string)

  /** The live stores: content, one vector collection, the graph and the blob store. */
  datatype Backend = Backend(
    content: map<Uri, Entry>,
    vectors: map<Uri, Point>,
    edges: set<Edge>,
    blobs: map<Hash, Bytes>)

  datatype Manifest = Manifest(
    jobId: nat,
    entry: Entry,
    blobs: seq<(BlobRef, Bytes)>,
    edges: seq<Edge>,
    vector: Option<Point>,
    createdAt: int)

  datatype Flags = Flags(manifest: bool, vector: bool, graph: bool, content: bool, blobs: bool)

  const NO_FLAGS := Flags(false, false, false, false, false)

  datatype JobState = Pending | Running | Retryable | Succeeded | PermanentlyFailed

  datatype Job = Job(
    id: nat,
    uri: Uri,
    state: JobState,
    attempts: nat,
    maxAttempts: nat,
    nextAttemptAt: int,
    checkpoint: Flags,
    revision: nat,
    leaseOwner: Option<nat>,
    leaseUntil: Option<int>,
    restore: Flags)

  const LEASE_SECONDS := 30
  const MAX_ATTEMPTS := 5

  /**
    How an awaited call ended.  `AppliedButFailed`: it took effect and then reported an error.
    `RevisionOnly` matters for journal updates alone: the revision of the caller's copy was
    bumped inside the transaction, and then the file could not be written.
  */
  datatype Fate = Fine | Failed | AppliedButFailed | RevisionOnly | Crash

  /** Where a worker stands between two awaits, with its local copy of the job. */
  datatype Worker =
    | Claimed(job: Job)
    | Phase(job: Job)
    | HasEntry(job: Job, entry: Entry, fetched: seq<(BlobRef, Bytes)>)
    | HasEdges(job: Job, entry: Entry, fetched: seq<(BlobRef, Bytes)>, edges: seq<Edge>)
    | HasAll(job: Job, entry: Entry, fetched: seq<(BlobRef, Bytes)>, edges: seq<Edge>, vector: Option<Point>)
    | RemovingEdges(job: Job, todo: seq<Edge>)
    | DeletingBlobs(job: Job, doomed: seq<(BlobRef, Bytes)>)
    | Commit(job: Job)
    | Failing(job: Job)
    | RestorePhase(job: Job, m: Manifest)
    | RestoreBlobs(job: Job, m: Manifest, done: nat)
    | RestoreWrite(job: Job, m: Manifest)
    | RestoreEdges(job: Job, m: Manifest, done: nat)
    | RestoreCommit(job: Job, m: Manifest)
  {
    predicate Restorer() {
      RestorePhase? || RestoreBlobs? || RestoreWrite? || RestoreEdges? || RestoreCommit?
    }
  }

  /** Durable state (journal, cold store, backends) and the volatile workers. */
  datatype State = State(
    journal: Option<Job>,
    cold: Option<Manifest>,
    backend: Backend,
    workers: map<nat, Worker>)

  datatype Action =
    | Submit(id: nat, uri: Uri, now: int)
    | Claim(worker: nat, now: int)
    | BeginRestore(worker: nat)
    | Work(worker: nat, fate: Fate, now: int)

  // ------------------------------------------------------------------ payloads and backends

  /** `collect_blobs`: the blob references of a payload, in order. */
  function CollectBlobs(p: Payload): seq<BlobRef>
  {
    match p
    case Text(_) => []
    case Image(raw) => [raw]
    case Audio(raw) => [raw]
    case Structured(_, schema) => if schema.Some? then [schema.value] else []
    case Composite(parts) => CollectParts(parts)
  }

  function CollectParts(parts: seq<Part>): seq<BlobRef>
  {
    if parts == [] then [] else CollectPart(parts[0]) + CollectParts(parts[1..])
  }

  function CollectPart(part: Part): seq<BlobRef>
  {
    match part
    case Embedded(p) => CollectBlobs(p)
    case Reference(_) => []
  }

  /** `r` is a blob of `p` or of a payload embedded in it, however deep. */
  ghost predicate Mentions(p: Payload, r: BlobRef)
  {
    match p
    case Text(_) => false
    case Image(raw) => raw == r
    case Audio(raw) => raw == r
    case Structured(_, schema) => schema == Some(r)
    case Composite(parts) => exists i :: 0 <= i < |parts| && parts[i].Embedded? && Mentions(parts[i].payload, r)
  }

  /** Every blob of a payload is collected, and nothing else; references to other entries are not followed. */
  lemma {:induction false} CollectsExactly(p: Payload, r: BlobRef)
    ensures r in CollectBlobs(p) <==> Mentions(p, r)
  {
    if p.Composite? { CollectsParts(p.parts, r); }
  }

  lemma {:induction false} CollectsParts(parts: seq<Part>, r: BlobRef)
    ensures r in CollectParts(parts) <==>
            exists i :: 0 <= i < |parts| && parts[i].Embedded? && Mentions(parts[i].payload, r)
  {
    if parts != [] {
      CollectsPart(parts[0], r);
      CollectsParts(parts[1..], r);
      if r in CollectParts(parts[1..]) {
        var i :| 0 <= i < |parts[1..]| && parts[1..][i].Embedded? && Mentions(parts[1..][i].payload, r);
        assert parts[i + 1] == parts[1..][i];
      }
      if i :| 0 < i < |parts| && parts[i].Embedded? && Mentions(parts[i].payload, r) {
        assert parts[1..][i - 1] == parts[i];
      }
    }
  }

  lemma {:induction false} CollectsPart(part: Part, r: BlobRef)
    ensures r in CollectPart(part) <==> part.Embedded? && Mentions(part.payload, r)
  {
    if part.Embedded? { CollectsExactly(part.payload, r); }
  }

  function Touching(edges: set<Edge>, uri: Uri): set<Edge>
  {
    set e | e in edges && (e.from == uri || e.to == uri)
  }

  /** A listing of every edge touching `uri`, each once. */
  ghost predicate Lists(listing: seq<Edge>, edges: set<Edge>, uri: Uri)
  {
    Distinct(listing) && Elements(listing) == Touching(edges, uri)
  }

  /** `remove_edge` drops every kind between the two ends. */
  function RemovePair(edges: set<Edge>, e: Edge): set<Edge>
  {
    set x | x in edges && !(x.from == e.from && x.to == e.to)
  }

  /** `write` files an entry as the store stamps it. */
  function WriteEntry(b: Backend, e: Entry, now: int, env: Env): Backend
  {
    var before := if e.uri in b.content then Some(b.content[e.uri]) else None;
    b.(content := b.content[e.uri := env.stamp(before, e, now)])
  }

  /** How the SQL stores stamp: the payload redacted, the time of the write, and the next version. */
  function SqlStamp(redact: Entry -> Entry, before: Option<Entry>, e: Entry, now: int): Entry
  {
    redact(e).(updatedAt := now, version := if before.None? then 1 else before.value.version + 1)
  }

  function LookupPoint(vectors: map<Uri, Point>, uri: Uri): Option<Point>
  {
    if uri in vectors then Some(vectors[uri]) else None
  }

  // ------------------------------------------------------------------ journal and cold store

  /** `FileLifecycleJournal::upsert`: an existing job wins. */
  function Upsert(journal: Option<Job>, job: Job): Option<Job>
  {
    if journal.Some? then journal else Some(job)
  }

  /** The job `submit` proposes. */
  function NewJob(id: nat, uri: Uri, now: int): Job
  {
    Job(id, uri, Pending, 0, MAX_ATTEMPTS, now, NO_FLAGS, 0, None, None, NO_FLAGS)
  }

  predicate Terminal(state: JobState) { state.Succeeded? || state.PermanentlyFailed? }

  predicate Claimable(job: Job, now: int)
  {
    && job.nextAttemptAt <= now
    && !Terminal(job.state)
    && (job.leaseUntil.Some? ==> job.leaseUntil.value <= now)
  }

  function ClaimedJob(job: Job, worker: nat, now: int): Job
  {
    job.(leaseOwner := Some(worker), leaseUntil := Some(now + LEASE_SECONDS), revision := job.revision + 1)
  }

  datatype Saved = Saved(journal: Option<Job>, job: Job, ok: bool)

  /** `FileLifecycleJournal::update`: compare the revision, bump the caller's copy, write the file. */
  function Save(journal: Option<Job>, job: Job, fate: Fate): Saved
  {
    if fate.Failed? || fate.Crash? || journal.None? || journal.value.revision != job.revision then
      Saved(journal, job, false)
    else
      var bumped := job.(revision := job.revision + 1);
      if fate.RevisionOnly? then Saved(journal, bumped, false)
      else Saved(Some(bumped), bumped, fate.Fine?)
  }

  datatype Put = Put(cold: Option<Manifest>, ok: bool)

  /** `FileColdStorage::put_manifest`: an existing manifest is immutable and compared as a whole. */
  function PutManifest(cold: Option<Manifest>, m: Manifest, fate: Fate): Put
  {
    if fate.Fine? then Put(if cold.None? then Some(m) else cold, cold.None? || cold.value == m)
    else if fate.AppliedButFailed? then Put(if cold.None? then Some(m) else cold, false)
    else Put(cold, false)
  }

  // ------------------------------------------------------------------ executor steps

  function Running1(job: Job): Job { job.(state := Running, attempts := job.attempts + 1) }

  function FinishedJob(job: Job): Job { job.(state := Succeeded, leaseOwner := None, leaseUntil := None) }

  function Pow2(n: nat): nat { if n == 0 then 1 else 2 * Pow2(n - 1) }

  function FailedJob(job: Job, now: int): Job
  {
    job.(state := if job.attempts >= job.maxAttempts then PermanentlyFailed else Retryable,
         nextAttemptAt := now + Pow2(if job.attempts < 10 then job.attempts else 10),
         leaseOwner := None,
         leaseUntil := None)
  }

  function Replace(s: State, w: nat, worker: Worker): State { s.(workers := s.workers[w := worker]) }

  function Drop(s: State, w: nat): State { s.(workers := s.workers - {w}) }

  function Applies(fate: Fate): bool { fate.Fine? || fate.AppliedButFailed? }

  /** The worker after an edge of the manifest is gone; an exhausted list goes on to its checkpoint. */
  function EdgesLeft(job: Job, todo: seq<Edge>): Worker
  {
    if todo == [] then Commit(job.(checkpoint := job.checkpoint.(graph := true))) else RemovingEdges(job, todo)
  }

  function BlobsLeft(job: Job, doomed: seq<(BlobRef, Bytes)>): Worker
  {
    if doomed == [] then Commit(job.(checkpoint := job.checkpoint.(blobs := true))) else DeletingBlobs(job, doomed)
  }

  /** The first checkpoint that is missing decides what a worker does next. */
  function PhaseStep(s: State, w: nat, job: Job, fate: Fate, env: Env): State
  {
    var cp := job.checkpoint;
    var after := (next: Worker) => if fate.Fine? then next else Failing(job);
    if !cp.manifest then
      if fate.Fine? && job.uri in s.backend.content then
        Replace(s, w, HasEntry(job, s.backend.content[job.uri], []))
      else Replace(s, w, Failing(job))
    else if !cp.vector then
      Replace(if Applies(fate) then s.(backend := s.backend.(vectors := s.backend.vectors - {job.uri})) else s,
              w, after(Commit(job.(checkpoint := cp.(vector := true)))))
    else if !cp.graph then
      Replace(s, w, if fate.Fine? && s.cold.Some? then EdgesLeft(job, s.cold.value.edges) else Failing(job))
    else if !cp.content then
      if env.strict && job.uri !in s.backend.content then Replace(s, w, Failing(job))
      else Replace(if Applies(fate) then s.(backend := s.backend.(content := s.backend.content - {job.uri})) else s,
              w, after(Commit(job.(checkpoint := cp.(content := true)))))
    else if !cp.blobs then
      Replace(s, w, if fate.Fine? && s.cold.Some? then BlobsLeft(job, s.cold.value.blobs) else Failing(job))
    else
      Drop(s.(journal := Save(s.journal, FinishedJob(job), fate).journal), w)
  }

  /** Reading the snapshot, then storing it: nothing here touches a live store. */
  function SnapshotStep(s: State, w: nat, k: Worker, fate: Fate, now: int, env: Env): State
    requires k.HasEntry? || k.HasEdges? || k.HasAll?
  {
    match k
    case HasEntry(job, entry, fetched) =>
      var refs := CollectBlobs(entry.payload);
      if !fate.Fine? then Replace(s, w, Failing(job))
      else if |fetched| < |refs| then
        var r := refs[|fetched|];
        Replace(s, w, if r.hash in s.backend.blobs then HasEntry(job, entry, fetched + [(r, s.backend.blobs[r.hash])])
                      else Failing(job))
      else
        Replace(s, w, HasEdges(job, entry, fetched, env.list(Touching(s.backend.edges, job.uri))))
    case HasEdges(job, entry, fetched, edges) =>
      Replace(s, w, if fate.Fine? then HasAll(job, entry, fetched, edges, LookupPoint(s.backend.vectors, job.uri))
                    else Failing(job))
    case HasAll(job, entry, fetched, edges, vector) =>
      var put := PutManifest(s.cold, Manifest(job.id, entry, fetched, edges, vector, now), fate);
      Replace(s.(cold := put.cold), w,
              if put.ok then Commit(job.(checkpoint := job.checkpoint.(manifest := true))) else Failing(job))
  }

  function RemovalStep(s: State, w: nat, k: Worker, fate: Fate): State
    requires k.RemovingEdges? || k.DeletingBlobs?
  {
    match k
    case RemovingEdges(job, todo) =>
      if todo == [] then Replace(s, w, EdgesLeft(job, []))
      else
        Replace(if Applies(fate) then s.(backend := s.backend.(edges := RemovePair(s.backend.edges, todo[0]))) else s,
                w, if fate.Fine? then EdgesLeft(job, todo[1..]) else Failing(job))
    case DeletingBlobs(job, doomed) =>
      if doomed == [] then Replace(s, w, BlobsLeft(job, []))
      else
        Replace(if Applies(fate) then s.(backend := s.backend.(blobs := s.backend.blobs - {doomed[0].0.hash})) else s,
                w, if fate.Fine? then BlobsLeft(job, doomed[1..]) else Failing(job))
  }

  /** The journal updates of an attempt: its start, a checkpoint, its failure. */
  function JournalStep(s: State, w: nat, k: Worker, fate: Fate, now: int): State
    requires k.Claimed? || k.Commit? || k.Failing?
  {
    match k
    case Claimed(job) =>
      var saved := Save(s.journal, Running1(job), fate);
      var t := s.(journal := saved.journal);
      if saved.ok then Replace(t, w, Phase(saved.job)) else Drop(t, w)
    case Commit(job) =>
      var saved := Save(s.journal, job, fate);
      Replace(s.(journal := saved.journal), w, if saved.ok then Phase(saved.job) else Failing(saved.job))
    case Failing(job) =>
      Drop(s.(journal := Save(s.journal, FailedJob(job, now), fate).journal), w)
  }

  // ------------------------------------------------------------------ restore steps

  function BlobsRestored(job: Job, m: Manifest, done: nat): Worker
  {
    if done >= |m.blobs| then RestoreCommit(job.(restore := job.restore.(blobs := true)), m)
    else RestoreBlobs(job, m, done)
  }

  function EdgesRestored(job: Job, m: Manifest, done: nat): Worker
  {
    if done >= |m.edges| then RestoreCommit(job.(restore := job.restore.(graph := true)), m)
    else RestoreEdges(job, m, done)
  }

  /** One await of `restore`. */
  function RestoreStep(s: State, w: nat, k: Worker, fate: Fate, now: int, env: Env): State
    requires k.Restorer()
  {
    match k
    case RestorePhase(job, m) =>
      var r := job.restore;
      if !r.blobs then Replace(s, w, BlobsRestored(job, m, 0))
      else if !r.content then
        if !fate.Fine? then Drop(s, w)
        else if m.entry.uri !in s.backend.content then Replace(s, w, RestoreWrite(job, m))
        else if s.backend.content[m.entry.uri] == m.entry then
          Replace(s, w, RestoreCommit(job.(restore := r.(content := true)), m))
        else Drop(s, w)
      else if !r.graph then Replace(s, w, EdgesRestored(job, m, 0))
      else if !r.vector then
        var b := s.backend;
        var t := if m.vector.Some? && Applies(fate)
                 then s.(backend := b.(vectors := b.vectors[m.vector.value.uri := m.vector.value])) else s;
        if m.vector.None? || fate.Fine? then Replace(t, w, RestoreCommit(job.(restore := r.(vector := true)), m))
        else Drop(t, w)
      else Drop(s, w)
    case RestoreBlobs(job, m, done) =>
      if done >= |m.blobs| then Replace(s, w, BlobsRestored(job, m, done))
      else
        var (r, data) := m.blobs[done];
        var written := env.digest(data);
        var t := if Applies(fate) then s.(backend := s.backend.(blobs := s.backend.blobs[written := data])) else s;
        if fate.Fine? && written == r.hash then Replace(t, w, BlobsRestored(job, m, done + 1)) else Drop(t, w)
    case RestoreWrite(job, m) =>
      var t := if Applies(fate) then s.(backend := WriteEntry(s.backend, m.entry, now, env)) else s;
      if fate.Fine? then Replace(t, w, RestoreCommit(job.(restore := job.restore.(content := true)), m)) else Drop(t, w)
    case RestoreEdges(job, m, done) =>
      if done >= |m.edges| then Replace(s, w, EdgesRestored(job, m, done))
      else
        var t := if Applies(fate) then s.(backend := s.backend.(edges := s.backend.edges + {m.edges[done]})) else s;
        if fate.Fine? then Replace(t, w, EdgesRestored(job, m, done + 1)) else Drop(t, w)
    case RestoreCommit(job, m) =>
      var saved := Save(s.journal, job, fate);
      var t := s.(journal := saved.journal);
      if saved.ok then Replace(t, w, RestorePhase(saved.job, m)) else Drop(t, w)
  }

  // ------------------------------------------------------------------ the machine

  function WorkStep(s: State, w: nat, fate: Fate, now: int, env: Env): State
    requires w in s.workers
  {
    var k := s.workers[w];
    if fate.Crash? then Drop(s, w)
    else if k.Restorer() then RestoreStep(s, w, k, fate, now, env)
    else if k.Phase? then PhaseStep(s, w, k.job, fate, env)
    else if k.HasEntry? || k.HasEdges? || k.HasAll? then SnapshotStep(s, w, k, fate, now, env)
    else if k.RemovingEdges? || k.DeletingBlobs? then RemovalStep(s, w, k, fate)
    else JournalStep(s, w, k, fate, now)
  }

  /** One atomic step; an action that is not enabled changes nothing. */
  function Step(s: State, a: Action, env: Env): State
  {
    match a
    case Submit(id, uri, now) => s.(journal := Upsert(s.journal, NewJob(id, uri, now)))
    case Claim(w, now) =>
      if w in s.workers || s.journal.None? || !Claimable(s.journal.value, now) then s
      else
        var job := ClaimedJob(s.journal.value, w, now);
        Replace(s.(journal := Some(job)), w, Claimed(job))
    case BeginRestore(w) =>
      if w in s.workers || s.cold.None? || s.journal.None? || !s.journal.value.state.Succeeded? then s
      else Replace(s, w, RestorePhase(s.journal.value, s.cold.value))
    case Work(w, fate, now) =>
      if w in s.workers then WorkStep(s, w, fate, now, env) else s
  }

  function Run(s: State, acts: seq<Action>, env: Env): State
    decreases |acts|
  {
    if acts == [] then s else Run(Step(s, acts[0], env), acts[1..], env)
  }

  /** `edges_for` returns every edge once. */
  ghost predicate Lawful(env: Env)
  {
    forall edges :: Distinct(env.list(edges)) && Elements(env.list(edges)) == edges
  }

  /** A backend before any job: entries are filed under their URI, blobs under their digest. */
  ghost predicate WellFormed(b: Backend, env: Env)
  {
    && Lawful(env)
    && (forall u :: u in b.content ==> b.content[u].uri == u)
    && (forall u :: u in b.vectors ==> b.vectors[u].uri == u)
    && (forall h :: h in b.blobs ==> env.digest(b.blobs[h]) == h)
  }

  function Start(b: Backend): State { State(None, None, b, map[]) }
}
