/**
  The cascade of an invalidation: a breadth-first plan over the entanglement lists, bounded in
  depth and in size, optionally widened by one step of the knowledge graph.
*/
module Cascade {
  import opened Prelude
  import opened Entanglement

  datatype Action = Revalidate | Invalidate

  datatype Task = Task(uri: Uri, depth: nat, action: Action, via: Uri)

  datatype Visit = Visit(uri: Uri, depth: nat)

  /** `graph` is `None` without a store or with expansion switched off; a failed traversal answers `None` too. */
  datatype Config = Config(
    maxDepth: nat,
    maxNodes: nat,
    minimum: real,
    links: Table,
    graph: Option<Uri -> Option<seq<Uri>>>)

  const INVALIDATE: real := 0.80

  datatype Progress = Progress(tasks: seq<Task>, queue: seq<Visit>, seen: set<Uri>)

  function TaskFor(link: Link, current: Uri, depth: nat): Task
  {
    Task(link.partner, depth, if depth == 1 && link.weight >= INVALIDATE then Invalidate else Revalidate, current)
  }

  /** The tasks the links of `current` suggest, before anything seen is left out. */
  function Suggested(current: Uri, depth: nat, c: Config): (r: seq<Task>)
    ensures |r| == |Strong(Links(c.links, current), c.minimum)|
    ensures forall t :: t in r ==> t.depth == depth && t.via == current
  {
    var links := Strong(Links(c.links, current), c.minimum);
    seq(|links|, i requires 0 <= i < |links| => TaskFor(links[i], current, depth))
  }

  function GraphTasks(current: Uri, depth: nat, c: Config): (r: seq<Task>)
    ensures forall t :: t in r ==> t.depth == depth && t.via == current
  {
    if c.graph.None? then []
    else
      var edges := c.graph.value(current);
      if edges.None? then []
      else seq(|edges.value|, i requires 0 <= i < |edges.value| => Task(edges.value[i], depth, Revalidate, current))
  }

  /** Take the new ones of `suggested` until the plan is full. */
  function Extend(p: Progress, suggested: seq<Task>, enqueue: bool, cap: nat): Progress
    decreases |suggested|
  {
    if suggested == [] || |p.tasks| >= cap then p
    else Extend(Added(p, suggested[0], enqueue), suggested[1..], enqueue, cap)
  }

  function Added(p: Progress, t: Task, enqueue: bool): Progress
  {
    if t.uri in p.seen then p
    else Progress(p.tasks + [t], if enqueue then p.queue + [Visit(t.uri, t.depth)] else p.queue, p.seen + {t.uri})
  }

  /** One turn of the loop. */
  function Pop(p: Progress, c: Config): Progress
    requires p.queue != []
  {
    var (current, rest) := (p.queue[0], p.(queue := p.queue[1..]));
    if current.depth >= c.maxDepth || |p.tasks| >= c.maxNodes then rest
    else
      var linked := Extend(rest, Suggested(current.uri, current.depth + 1, c), true, c.maxNodes);
      Extend(linked, GraphTasks(current.uri, current.depth + 1, c), false, c.maxNodes)
  }

  function Begin(trigger: Uri): Progress { Progress([], [Visit(trigger, 0)], {trigger}) }

  /** Turn after turn until the queue is empty. */
  ghost function Finished(p: Progress, c: Config): Progress
    requires |p.tasks| <= c.maxNodes
    decreases c.maxNodes - |p.tasks|, |p.queue|
  {
    if p.queue == [] then p
    else
      PopShrinks(p, c);
      Finished(Pop(p, c), c)
  }

  // ------------------------------------------------------------------ reference: levels

  /** What is new in `suggested`, first occurrences only. */
  function Fresh(suggested: seq<Task>, seen: set<Uri>): seq<Task>
  {
    if suggested == [] then []
    else if suggested[0].uri in seen then Fresh(suggested[1..], seen)
    else [suggested[0]] + Fresh(suggested[1..], seen + {suggested[0].uri})
  }

  function Uris(tasks: seq<Task>): set<Uri> { set t | t in tasks :: t.uri }

  function AllSuggested(us: seq<Uri>, depth: nat, c: Config): seq<Task>
  {
    if us == [] then [] else AllSuggested(us[..|us| - 1], depth, c) + Suggested(us[|us| - 1], depth, c)
  }

  function UrisOf(tasks: seq<Task>): (r: seq<Uri>)
  {
    seq(|tasks|, i requires 0 <= i < |tasks| => tasks[i].uri)
  }

  /** The URIs of level `k`: the trigger, then whatever a level links to that no earlier one holds. */
  function LevelUris(trigger: Uri, k: nat, c: Config): seq<Uri>
    decreases k, 0
  {
    if k == 0 then [trigger] else UrisOf(Level(trigger, k, c))
  }

  function Level(trigger: Uri, k: nat, c: Config): seq<Task>
    requires k > 0
    decreases k - 1, 1
  {
    Fresh(AllSuggested(LevelUris(trigger, k - 1, c), k, c), {trigger} + Uris(Full(trigger, k - 1, c)))
  }

  /** The plan down to level `k` with no limit on its size. */
  function Full(trigger: Uri, k: nat, c: Config): seq<Task>
    decreases k, 0
  {
    if k == 0 then [] else Full(trigger, k - 1, c) + Level(trigger, k, c)
  }

  function Take<T>(xs: seq<T>, n: nat): seq<T> { if |xs| <= n then xs else xs[..n] }

  // ------------------------------------------------------------------ the plan as its loops

  method ExtendLoop(p: Progress, suggested: seq<Task>, enqueue: bool, cap: nat) returns (r: Progress)
    ensures r == Extend(p, suggested, enqueue, cap)
  {
    r := p;
    var i := 0;
    assert suggested[0..] == suggested;
    while i < |suggested| && |r.tasks| < cap
      invariant 0 <= i <= |suggested|
      invariant Extend(p, suggested, enqueue, cap) == Extend(r, suggested[i..], enqueue, cap)
    {
      assert suggested[i..][0] == suggested[i] && suggested[i..][1..] == suggested[i + 1..];
      r := Added(r, suggested[i], enqueue);
      i := i + 1;
    }
  }

  /** `plan_from_invalidated`. */
  method PlanFromInvalidated(trigger: Uri, c: Config) returns (tasks: seq<Task>)
    ensures Safe(tasks, trigger, c) && |tasks| <= c.maxNodes
    ensures tasks == Finished(Begin(trigger), c).tasks
    ensures c.graph.None? ==> tasks == Take(Full(trigger, c.maxDepth, c), c.maxNodes)
    ensures Entanglement.Sound(c.links) && c.maxDepth >= 1 ==> InvalidatesFirst(tasks, trigger, c)
  {
    var p := Begin(trigger);
    ghost var k, i := 0, 0;
    while p.queue != []
      invariant Ongoing(p, k, i, trigger, c)
      decreases c.maxNodes - |p.tasks|, |p.queue|
    {
      k, i := TurnKeeps(p, k, i, trigger, c);
      PopShrinks(p, c);
      p := Turn(p, c);
    }
    if c.graph.None? { EmptyQueueIsDone(p, k, i, trigger, c); }
    tasks := p.tasks;
    if Entanglement.Sound(c.links) && c.maxDepth >= 1 { InvalidatesExactly(tasks, trigger, c); }
  }

  /** One turn of the loop, in place. */
  method Turn(p: Progress, c: Config) returns (r: Progress)
    requires p.queue != []
    ensures r == Pop(p, c)
  {
    var current := p.queue[0];
    r := p.(queue := p.queue[1..]);
    if current.depth < c.maxDepth && |p.tasks| < c.maxNodes {
      r := ExtendLoop(r, Suggested(current.uri, current.depth + 1, c), true, c.maxNodes);
      r := ExtendLoop(r, GraphTasks(current.uri, current.depth + 1, c), false, c.maxNodes);
    }
  }

  /** Where the loop stands, for everything that is said of its result. */
  ghost predicate Ongoing(p: Progress, k: nat, i: nat, trigger: Uri, c: Config)
  {
    && Sound(p, trigger, c) && Finished(Begin(trigger), c) == Finished(p, c)
    && (c.graph.None? ==> OnTrack(p, k, i, trigger, c)) && NearestIn(p, trigger, c)
  }

  lemma TurnKeeps(p: Progress, k: nat, i: nat, trigger: Uri, c: Config) returns (k': nat, i': nat)
    requires Ongoing(p, k, i, trigger, c) && p.queue != []
    ensures Ongoing(Pop(p, c), k', i', trigger, c)
  {
    k', i' := k, i;
    PopKeepsSound(p, trigger, c);
    NearestStays(p, trigger, c);
    if c.graph.None? { k', i' := PopStaysOnTrack(p, k, i, trigger, c); }
  }

  // ------------------------------------------------------------------ safety, graph or not

  /** `t` follows from the trigger or from an earlier task, one level deeper, over a link or a graph edge. */
  ghost predicate Follows(t: Task, earlier: seq<Task>, trigger: Uri, c: Config)
  {
    && 0 < t.depth <= c.maxDepth
    && (t in Suggested(t.via, t.depth, c) || t in GraphTasks(t.via, t.depth, c))
    && (if t.depth == 1 then t.via == trigger else exists s :: s in earlier && s.uri == t.via && s.depth == t.depth - 1)
  }

  ghost predicate FollowsAt(tasks: seq<Task>, i: nat, trigger: Uri, c: Config)
    requires i < |tasks|
  {
    Follows(tasks[i], tasks[..i], trigger, c)
  }

  ghost predicate Safe(tasks: seq<Task>, trigger: Uri, c: Config)
  {
    && Distinct(UrisOf(tasks)) && trigger !in Uris(tasks)
    && forall i :: 0 <= i < |tasks| ==> FollowsAt(tasks, i, trigger, c)
  }

  ghost predicate Known(v: Visit, tasks: seq<Task>, trigger: Uri)
  {
    if v.depth == 0 then v.uri == trigger else exists s :: s in tasks && s.uri == v.uri && s.depth == v.depth
  }

  ghost predicate Sound(p: Progress, trigger: Uri, c: Config)
  {
    && Safe(p.tasks, trigger, c) && |p.tasks| <= c.maxNodes
    && p.seen == {trigger} + Uris(p.tasks)
    && forall v :: v in p.queue ==> Known(v, p.tasks, trigger)
  }

  lemma AddedKeepsSound(p: Progress, t: Task, enqueue: bool, trigger: Uri, c: Config)
    requires Sound(p, trigger, c) && Follows(t, p.tasks, trigger, c) && |p.tasks| < c.maxNodes
    ensures Sound(Added(p, t, enqueue), trigger, c)
  {
    if t.uri !in p.seen {
      var q := Added(p, t, enqueue);
      assert Uris(q.tasks) == Uris(p.tasks) + {t.uri};
      SafeAppend(p.tasks, t, trigger, c);
      forall v | v in q.queue ensures Known(v, q.tasks, trigger) {
        if v in p.queue { KnownLater(v, p.tasks, t, trigger); } else { assert t in q.tasks; }
      }
    }
  }

  lemma KnownLater(v: Visit, tasks: seq<Task>, t: Task, trigger: Uri)
    requires Known(v, tasks, trigger)
    ensures Known(v, tasks + [t], trigger)
  {
  }

  lemma SafeAppend(tasks: seq<Task>, t: Task, trigger: Uri, c: Config)
    requires Safe(tasks, trigger, c) && t.uri !in Uris(tasks) && t.uri != trigger && Follows(t, tasks, trigger, c)
    ensures Safe(tasks + [t], trigger, c)
  {
    var more := tasks + [t];
    forall i, j | 0 <= i < j < |more| ensures UrisOf(more)[i] != UrisOf(more)[j] {
      assert UrisOf(tasks)[i] == more[i].uri && more[i] in tasks;
      if j < |tasks| { assert UrisOf(tasks)[j] == more[j].uri; }
    }
    forall i | 0 <= i < |more| ensures FollowsAt(more, i, trigger, c) {
      if i < |tasks| {
        assert FollowsAt(tasks, i, trigger, c) && more[..i] == tasks[..i];
      } else {
        assert more[..i] == tasks;
      }
    }
  }

  lemma {:induction false} ExtendKeepsSound(p: Progress, suggested: seq<Task>, enqueue: bool, trigger: Uri, c: Config)
    requires Sound(p, trigger, c)
    requires forall t :: t in suggested ==> Follows(t, p.tasks, trigger, c)
    ensures Sound(Extend(p, suggested, enqueue, c.maxNodes), trigger, c)
    decreases |suggested|
  {
    if suggested != [] && |p.tasks| < c.maxNodes {
      var q := Added(p, suggested[0], enqueue);
      AddedKeepsSound(p, suggested[0], enqueue, trigger, c);
      forall t | t in suggested[1..] ensures Follows(t, q.tasks, trigger, c) {
        FollowsLater(t, p.tasks, q.tasks, trigger, c);
      }
      ExtendKeepsSound(q, suggested[1..], enqueue, trigger, c);
    }
  }

  lemma FollowsLater(t: Task, tasks: seq<Task>, more: seq<Task>, trigger: Uri, c: Config)
    requires Follows(t, tasks, trigger, c) && tasks <= more
    ensures Follows(t, more, trigger, c)
  {
  }

  lemma {:induction false} ExtendOnlyAdds(p: Progress, suggested: seq<Task>, enqueue: bool, cap: nat)
    ensures var q := Extend(p, suggested, enqueue, cap);
            p.tasks <= q.tasks && p.queue <= q.queue && (q.tasks == p.tasks ==> q == p)
            && (|p.tasks| <= cap ==> |q.tasks| <= cap)
    decreases |suggested|
  {
    if suggested != [] && |p.tasks| < cap {
      ExtendOnlyAdds(Added(p, suggested[0], enqueue), suggested[1..], enqueue, cap);
    }
  }

  lemma PopKeepsSound(p: Progress, trigger: Uri, c: Config)
    requires Sound(p, trigger, c) && p.queue != []
    ensures Sound(Pop(p, c), trigger, c)
  {
    var v, rest := p.queue[0], p.(queue := p.queue[1..]);
    assert Sound(rest, trigger, c);
    if v.depth < c.maxDepth && |p.tasks| < c.maxNodes {
      var linked := Extend(rest, Suggested(v.uri, v.depth + 1, c), true, c.maxNodes);
      assert Known(v, p.tasks, trigger);
      ExtendKeepsSound(rest, Suggested(v.uri, v.depth + 1, c), true, trigger, c);
      ExtendOnlyAdds(rest, Suggested(v.uri, v.depth + 1, c), true, c.maxNodes);
      forall t | t in GraphTasks(v.uri, v.depth + 1, c) ensures Follows(t, linked.tasks, trigger, c) {
        FollowsLater(t, p.tasks, linked.tasks, trigger, c);
      }
      ExtendKeepsSound(linked, GraphTasks(v.uri, v.depth + 1, c), false, trigger, c);
    }
  }

  /** Every turn fills the plan or shortens the queue, so the loop ends. */
  lemma PopShrinks(p: Progress, c: Config)
    requires p.queue != [] && |p.tasks| <= c.maxNodes
    ensures |Pop(p, c).tasks| <= c.maxNodes
    ensures |p.tasks| < |Pop(p, c).tasks| || (Pop(p, c).tasks == p.tasks && |Pop(p, c).queue| < |p.queue|)
  {
    var v, rest := p.queue[0], p.(queue := p.queue[1..]);
    if v.depth < c.maxDepth && |p.tasks| < c.maxNodes {
      var linked := Extend(rest, Suggested(v.uri, v.depth + 1, c), true, c.maxNodes);
      ExtendOnlyAdds(rest, Suggested(v.uri, v.depth + 1, c), true, c.maxNodes);
      ExtendOnlyAdds(linked, GraphTasks(v.uri, v.depth + 1, c), false, c.maxNodes);
    }
  }

  // ------------------------------------------------------------------ the queue walks the levels

  function VisitsOf(us: seq<Uri>, depth: nat): (r: seq<Visit>)
  {
    seq(|us|, i requires 0 <= i < |us| => Visit(us[i], depth))
  }

  /** What the first `i` URIs of level `k` add. */
  function Partial(trigger: Uri, k: nat, i: nat, c: Config): seq<Task>
    requires i <= |LevelUris(trigger, k, c)|
  {
    Fresh(AllSuggested(LevelUris(trigger, k, c)[..i], k + 1, c), {trigger} + Uris(Full(trigger, k, c)))
  }

  /** The queue holds the rest of one level, from its `i`-th URI on, and `next`, the next level so far. */
  ghost predicate Between(p: Progress, full: seq<Task>, us: seq<Uri>, next: seq<Task>, k: nat, i: nat, trigger: Uri)
  {
    && i <= |us|
    && p.tasks == full + next
    && p.seen == {trigger} + Uris(p.tasks)
    && p.queue == VisitsOf(us[i..], k) + VisitsOf(UrisOf(next), k + 1)
  }

  function NextSoFar(trigger: Uri, k: nat, i: nat, c: Config): seq<Task>
    requires i <= |LevelUris(trigger, k, c)|
  {
    if k < c.maxDepth then Partial(trigger, k, i, c) else []
  }

  /** Before the plan is full, the queue walks level `k`. */
  ghost predicate Walking(p: Progress, k: nat, i: nat, trigger: Uri, c: Config)
  {
    && k <= c.maxDepth && i <= |LevelUris(trigger, k, c)|
    && Between(p, Full(trigger, k, c), LevelUris(trigger, k, c), NextSoFar(trigger, k, i, c), k, i, trigger)
  }

  ghost predicate OnTrack(p: Progress, k: nat, i: nat, trigger: Uri, c: Config)
  {
    if |p.tasks| < c.maxNodes then Walking(p, k, i, trigger, c)
    else p.tasks == Take(Full(trigger, c.maxDepth, c), c.maxNodes)
  }

  lemma {:induction false} FreshAppend(xs: seq<Task>, ys: seq<Task>, seen: set<Uri>)
    ensures Fresh(xs + ys, seen) == Fresh(xs, seen) + Fresh(ys, seen + Uris(Fresh(xs, seen)))
    decreases |xs|
  {
    if xs == [] {
      assert xs + ys == ys && seen + Uris([]) == seen;
    } else {
      assert (xs + ys)[1..] == xs[1..] + ys;
      if xs[0].uri in seen {
        FreshAppend(xs[1..], ys, seen);
      } else {
        var more := seen + {xs[0].uri};
        var rest := Fresh(xs[1..], more);
        FreshAppend(xs[1..], ys, more);
        assert more + Uris(rest) == seen + Uris([xs[0]] + rest);
      }
    }
  }

  /** Short of the limit, `Extend` adds exactly what is added; at the limit, a prefix of it. */
  lemma {:induction false} ExtendIsFresh(p: Progress, suggested: seq<Task>, cap: nat)
    requires |p.tasks| < cap
    ensures var (q, added) := (Extend(p, suggested, true, cap), Fresh(suggested, p.seen));
            && q.tasks == Take(p.tasks + added, cap)
            && (|p.tasks + added| < cap ==> q.seen == p.seen + Uris(added) && q.queue == p.queue + QueueOf(added))
    decreases |suggested|
  {
    if suggested == [] {
      assert p.tasks + [] == p.tasks && p.seen + Uris([]) == p.seen && p.queue + QueueOf([]) == p.queue;
    } else if suggested[0].uri in p.seen {
      ExtendIsFresh(p, suggested[1..], cap);
    } else {
      var t := suggested[0];
      var q := Added(p, t, true);
      var rest := Fresh(suggested[1..], q.seen);
      assert p.tasks + ([t] + rest) == q.tasks + rest;
      if |q.tasks| < cap {
        ExtendIsFresh(q, suggested[1..], cap);
        assert q.seen + Uris(rest) == p.seen + Uris([t] + rest);
        assert q.queue + QueueOf(rest) == p.queue + QueueOf([t] + rest);
      } else {
        assert (p.tasks + ([t] + rest))[..cap] == q.tasks;
      }
    }
  }

  function QueueOf(tasks: seq<Task>): (r: seq<Visit>)
  {
    seq(|tasks|, i requires 0 <= i < |tasks| => Visit(tasks[i].uri, tasks[i].depth))
  }

  lemma {:induction false} FreshSelects(suggested: seq<Task>, seen: set<Uri>)
    ensures forall t :: t in Fresh(suggested, seen) ==> t in suggested && t.uri !in seen
    ensures forall u :: u !in seen ==> (u in Uris(Fresh(suggested, seen)) <==> u in Uris(suggested))
    decreases |suggested|
  {
    if suggested != [] {
      var first, rest := suggested[0], suggested[1..];
      assert suggested == [first] + rest;
      UrisSplit(first, rest);
      if first.uri in seen {
        FreshSelects(rest, seen);
      } else {
        FreshSelects(rest, seen + {first.uri});
        UrisSplit(first, Fresh(rest, seen + {first.uri}));
      }
    }
  }

  lemma UrisSplit(t: Task, ts: seq<Task>)
    ensures Uris([t] + ts) == {t.uri} + Uris(ts)
  {
  }

  lemma {:induction false} FreshIsDistinct(suggested: seq<Task>, seen: set<Uri>)
    ensures Distinct(UrisOf(Fresh(suggested, seen)))
    decreases |suggested|
  {
    if suggested != [] {
      if suggested[0].uri in seen {
        FreshIsDistinct(suggested[1..], seen);
      } else {
        var more := seen + {suggested[0].uri};
        var rest := Fresh(suggested[1..], more);
        FreshIsDistinct(suggested[1..], more);
        FreshSelects(suggested[1..], more);
        assert UrisOf([suggested[0]] + rest) == [suggested[0].uri] + UrisOf(rest);
        forall j | 0 <= j < |rest| ensures UrisOf(rest)[j] != suggested[0].uri {
          assert rest[j] in rest;
        }
      }
    }
  }

  lemma {:induction false} SuggestedDepth(us: seq<Uri>, depth: nat, c: Config)
    ensures forall t :: t in AllSuggested(us, depth, c) ==> t.depth == depth && t.via in us
    ensures forall t, u :: u in us && t in Suggested(u, depth, c) ==> t in AllSuggested(us, depth, c)
    ensures forall t :: t in AllSuggested(us, depth, c) ==> t in Suggested(t.via, depth, c)
    decreases |us|
  {
    if us != [] { SuggestedDepth(us[..|us| - 1], depth, c); }
  }

  lemma SuggestedNext(us: seq<Uri>, i: nat, depth: nat, c: Config)
    requires i < |us|
    ensures AllSuggested(us[..i + 1], depth, c) == AllSuggested(us[..i], depth, c) + Suggested(us[i], depth, c)
  {
    assert us[..i + 1][..i] == us[..i] && us[..i + 1][i] == us[i];
  }

  lemma PartialStep(trigger: Uri, k: nat, i: nat, c: Config)
    requires i < |LevelUris(trigger, k, c)|
    ensures var u := LevelUris(trigger, k, c)[i];
            Partial(trigger, k, i + 1, c) == Partial(trigger, k, i, c) + Fresh(Suggested(u, k + 1, c),
              {trigger} + Uris(Full(trigger, k, c)) + Uris(Partial(trigger, k, i, c)))
  {
    var us := LevelUris(trigger, k, c);
    SuggestedNext(us, i, k + 1, c);
    FreshAppend(AllSuggested(us[..i], k + 1, c), Suggested(us[i], k + 1, c), {trigger} + Uris(Full(trigger, k, c)));
  }

  lemma {:induction false} PartialIsPrefix(trigger: Uri, k: nat, i: nat, c: Config)
    requires i <= |LevelUris(trigger, k, c)|
    ensures Partial(trigger, k, i, c) <= Level(trigger, k + 1, c)
    decreases |LevelUris(trigger, k, c)| - i
  {
    var us := LevelUris(trigger, k, c);
    if i == |us| {
      assert us[..i] == us;
    } else {
      PartialStep(trigger, k, i, c);
      PartialIsPrefix(trigger, k, i + 1, c);
    }
  }

  lemma {:induction false} FullGrows(trigger: Uri, k: nat, n: nat, c: Config)
    requires k <= n
    ensures Full(trigger, k, c) <= Full(trigger, n, c)
    decreases n
  {
    if k < n { FullGrows(trigger, k, n - 1, c); }
  }

  lemma LevelDone(p: Progress, k: nat, trigger: Uri, c: Config)
    requires Walking(p, k, |LevelUris(trigger, k, c)|, trigger, c) && k < c.maxDepth
    ensures Walking(p, k + 1, 0, trigger, c)
  {
    var us := LevelUris(trigger, k, c);
    assert us[..|us|] == us && us[|us|..] == [];
    var next := LevelUris(trigger, k + 1, c);
    assert next[..0] == [] && next[0..] == next;
    assert AllSuggested([], k + 2, c) == [];
    assert Partial(trigger, k, |us|, c) == Level(trigger, k + 1, c);
    assert p.queue == VisitsOf([], k) + VisitsOf(next, k + 1);
    assert p.queue == VisitsOf(next, k + 1) + VisitsOf(UrisOf([]), k + 2);
    assert p.tasks == Full(trigger, k + 1, c) + [];
  }

  lemma SplitQueue(us: seq<Uri>, i: nat, k: nat, tail: seq<Visit>)
    requires i < |us|
    ensures var queue := VisitsOf(us[i..], k) + tail;
            queue != [] && queue[0] == Visit(us[i], k) && queue[1..] == VisitsOf(us[i + 1..], k) + tail
  {
  }

  /** One turn on a visit above the limit adds what is new below it. */
  lemma PopAboveLimit(p: Progress, full: seq<Task>, us: seq<Uri>, next: seq<Task>, k: nat, i: nat, trigger: Uri,
    c: Config)
    requires Between(p, full, us, next, k, i, trigger) && i < |us| && k < c.maxDepth
    requires |p.tasks| < c.maxNodes && c.graph.None?
    ensures p.queue != []
    ensures var added := Fresh(Suggested(us[i], k + 1, c), p.seen);
            && Pop(p, c).tasks == Take(full + (next + added), c.maxNodes)
            && (|full + (next + added)| < c.maxNodes ==> Between(Pop(p, c), full, us, next + added, k, i + 1, trigger))
  {
    var suggested := Suggested(us[i], k + 1, c);
    var added := Fresh(suggested, p.seen);
    var rest := p.(queue := p.queue[1..]);
    SplitQueue(us, i, k, VisitsOf(UrisOf(next), k + 1));
    assert Pop(p, c) == Extend(rest, suggested, true, c.maxNodes);
    ExtendIsFresh(rest, suggested, c.maxNodes);
    assert p.tasks + added == full + (next + added);
    FreshSelects(suggested, p.seen);
    QueueGrows(us[i + 1..], next, added, k);
    assert Uris(p.tasks + added) == Uris(p.tasks) + Uris(added);
  }

  lemma QueueGrows(left: seq<Uri>, next: seq<Task>, added: seq<Task>, k: nat)
    requires forall t :: t in added ==> t.depth == k + 1
    ensures VisitsOf(left, k) + VisitsOf(UrisOf(next), k + 1) + QueueOf(added)
            == VisitsOf(left, k) + VisitsOf(UrisOf(next + added), k + 1)
  {
  }

  /** One turn on a queue that still holds some of level `k`. */
  lemma PopWithinLevel(p: Progress, k: nat, i: nat, trigger: Uri, c: Config)
    requires Walking(p, k, i, trigger, c) && i < |LevelUris(trigger, k, c)| && |p.tasks| < c.maxNodes && c.graph.None?
    ensures p.queue != [] && OnTrack(Pop(p, c), k, i + 1, trigger, c)
  {
    var full, us := Full(trigger, k, c), LevelUris(trigger, k, c);
    if k == c.maxDepth {
    } else {
      var next := Partial(trigger, k, i, c);
      var added := Fresh(Suggested(us[i], k + 1, c), p.seen);
      PopAboveLimit(p, full, us, next, k, i, trigger, c);
      JoinPartial(p.seen, next, added, k, i, trigger, c);
      if |full + (next + added)| >= c.maxNodes { PrefixTaken(full + (next + added), k, i + 1, trigger, c); }
    }
  }

  lemma JoinPartial(seen: set<Uri>, next: seq<Task>, added: seq<Task>, k: nat, i: nat, trigger: Uri, c: Config)
    requires i < |LevelUris(trigger, k, c)| && next == Partial(trigger, k, i, c)
    requires seen == {trigger} + Uris(Full(trigger, k, c) + next)
    requires added == Fresh(Suggested(LevelUris(trigger, k, c)[i], k + 1, c), seen)
    ensures Partial(trigger, k, i + 1, c) == next + added
  {
    PartialStep(trigger, k, i, c);
    assert Uris(Full(trigger, k, c) + next) == Uris(Full(trigger, k, c)) + Uris(next);
    assert seen == {trigger} + Uris(Full(trigger, k, c)) + Uris(next);
  }

  lemma PrefixTaken(tasks: seq<Task>, k: nat, i: nat, trigger: Uri, c: Config)
    requires k < c.maxDepth && i <= |LevelUris(trigger, k, c)|
    requires tasks == Full(trigger, k, c) + Partial(trigger, k, i, c) && |tasks| >= c.maxNodes
    ensures Take(tasks, c.maxNodes) == Take(Full(trigger, c.maxDepth, c), c.maxNodes)
  {
    PartialIsPrefix(trigger, k, i, c);
    FullGrows(trigger, k + 1, c.maxDepth, c);
  }

  lemma PopStaysOnTrack(p: Progress, k: nat, i: nat, trigger: Uri, c: Config) returns (k': nat, i': nat)
    requires OnTrack(p, k, i, trigger, c) && p.queue != [] && c.graph.None?
    ensures OnTrack(Pop(p, c), k', i', trigger, c)
  {
    if |p.tasks| >= c.maxNodes {
      k', i' := k, i;
    } else if i < |LevelUris(trigger, k, c)| {
      PopWithinLevel(p, k, i, trigger, c);
      k', i' := k, i + 1;
    } else {
      NextLevelExists(p, k, i, trigger, c);
      PopWithinLevel(p, k + 1, 0, trigger, c);
      k', i' := k + 1, 1;
    }
  }

  lemma NextLevelExists(p: Progress, k: nat, i: nat, trigger: Uri, c: Config)
    requires Walking(p, k, i, trigger, c) && i == |LevelUris(trigger, k, c)| && p.queue != []
    ensures Walking(p, k + 1, 0, trigger, c) && 0 < |LevelUris(trigger, k + 1, c)|
  {
    assert LevelUris(trigger, k, c)[i..] == [];
    if k < c.maxDepth { LevelDone(p, k, trigger, c); }
  }

  lemma {:induction false} EmptyLevelEnds(trigger: Uri, k: nat, n: nat, c: Config)
    requires k < n && Level(trigger, k + 1, c) == []
    ensures Full(trigger, n, c) == Full(trigger, k, c) && Level(trigger, n, c) == []
    decreases n
  {
    if k + 1 < n {
      EmptyLevelEnds(trigger, k, n - 1, c);
      AfterEmptyLevel(trigger, n - 1, c);
    }
  }

  lemma AfterEmptyLevel(trigger: Uri, k: nat, c: Config)
    requires k > 0 && Level(trigger, k, c) == []
    ensures Level(trigger, k + 1, c) == [] && Full(trigger, k + 1, c) == Full(trigger, k, c)
  {
    assert LevelUris(trigger, k, c) == [] && AllSuggested([], k + 1, c) == [];
  }

  lemma EmptyQueueIsDone(p: Progress, k: nat, i: nat, trigger: Uri, c: Config)
    requires OnTrack(p, k, i, trigger, c) && p.queue == []
    ensures p.tasks == Take(Full(trigger, c.maxDepth, c), c.maxNodes)
  {
    if |p.tasks| < c.maxNodes && k < c.maxDepth {
      var us := LevelUris(trigger, k, c);
      assert |us[i..]| == 0 && us[..i] == us;
      EmptyLevelEnds(trigger, k, c.maxDepth, c);
    }
  }

  // ------------------------------------------------------------------ levels are distances

  /** Strong enough to be followed. */
  ghost predicate Joined(u: Uri, v: Uri, c: Config)
  {
    exists l :: l in Strong(Links(c.links, u), c.minimum) && l.partner == v
  }

  /** `u` is `d` links from the trigger. */
  ghost predicate Walk(trigger: Uri, u: Uri, d: nat, c: Config)
    decreases d
  {
    if d == 0 then u == trigger else exists v :: Walk(trigger, v, d - 1, c) && Joined(v, u, c)
  }

  ghost predicate Within(trigger: Uri, u: Uri, d: nat, c: Config) { exists e :: 0 <= e <= d && Walk(trigger, u, e, c) }

  ghost predicate Shortest(trigger: Uri, u: Uri, d: nat, c: Config)
  {
    Walk(trigger, u, d, c) && forall e :: 0 <= e < d ==> !Walk(trigger, u, e, c)
  }

  lemma SuggestedIsJoined(u: Uri, v: Uri, depth: nat, c: Config)
    ensures Joined(u, v, c) <==> exists t :: t in Suggested(u, depth, c) && t.uri == v
  {
    var links := Strong(Links(c.links, u), c.minimum);
    if Joined(u, v, c) {
      var l :| l in links && l.partner == v;
      var i :| 0 <= i < |links| && links[i] == l;
      assert Suggested(u, depth, c)[i].uri == v;
    }
    if t :| t in Suggested(u, depth, c) && t.uri == v {
      var i :| 0 <= i < |links| && Suggested(u, depth, c)[i] == t;
      assert links[i] in links;
    }
  }

  lemma UrisOfLevel(trigger: Uri, k: nat, u: Uri, c: Config)
    requires k > 0
    ensures u in LevelUris(trigger, k, c) <==> u in Uris(Level(trigger, k, c))
    ensures u in Uris(Full(trigger, k, c)) <==> u in Uris(Full(trigger, k - 1, c)) || u in Uris(Level(trigger, k, c))
  {
    var level := Level(trigger, k, c);
    if u in LevelUris(trigger, k, c) {
      var i :| 0 <= i < |level| && UrisOf(level)[i] == u;
      assert level[i] in level;
    }
    if t :| t in level && t.uri == u {
      var i :| 0 <= i < |level| && level[i] == t;
      assert UrisOf(level)[i] == u;
    }
  }

  /** A level holds what the level before links to and no earlier one holds. */
  lemma NextLevel(trigger: Uri, k: nat, u: Uri, c: Config)
    requires k > 0
    ensures u in LevelUris(trigger, k, c) <==>
            u != trigger && u !in Uris(Full(trigger, k - 1, c)) && exists v ::
              v in LevelUris(trigger, k - 1, c) && Joined(v, u, c)
    ensures u in Uris(Full(trigger, k, c)) <==> u in Uris(Full(trigger, k - 1, c)) || u in LevelUris(trigger, k, c)
  {
    var before := LevelUris(trigger, k - 1, c);
    var seen := {trigger} + Uris(Full(trigger, k - 1, c));
    var all := AllSuggested(before, k, c);
    FreshSelects(all, seen);
    SuggestedDepth(before, k, c);
    UrisOfLevel(trigger, k, u, c);
    assert u in LevelUris(trigger, k, c) <==> u !in seen && u in Uris(all);
    if t :| t in all && t.uri == u { SuggestedIsJoined(t.via, u, k, c); }
    if v :| v in before && Joined(v, u, c) {
      SuggestedIsJoined(v, u, k, c);
    }
  }

  /**
    The uncapped plan down to level `k` is everything within distance `k`, and level `k` everything at
    distance `k`.
  */
  ghost predicate LevelsAreDistances(trigger: Uri, k: nat, c: Config)
  {
    && (forall u :: u == trigger || u in Uris(Full(trigger, k, c)) <==> Within(trigger, u, k, c))
    && (forall u :: u in LevelUris(trigger, k, c) <==> Shortest(trigger, u, k, c))
  }

  lemma {:induction false} LevelIsDistance(trigger: Uri, k: nat, c: Config)
    ensures LevelsAreDistances(trigger, k, c)
  {
    if k == 0 {
      assert Walk(trigger, trigger, 0, c);
      forall u | Within(trigger, u, 0, c) ensures u == trigger { var e :| 0 <= e <= 0 && Walk(trigger, u, e, c); }
    } else {
      LevelIsDistance(trigger, k - 1, c);
      forall u ensures u in LevelUris(trigger, k, c) <==> Shortest(trigger, u, k, c) { LevelStep(trigger, k, u, c); }
      forall u ensures u == trigger || u in Uris(Full(trigger, k, c)) <==> Within(trigger, u, k, c) {
        LevelStep(trigger, k, u, c);
        NextLevel(trigger, k, u, c);
      }
    }
  }

  lemma WalkOn(trigger: Uri, v: Uri, u: Uri, e: nat, c: Config)
    requires Walk(trigger, v, e, c) && Joined(v, u, c)
    ensures Walk(trigger, u, e + 1, c)
  {
  }

  lemma LevelStep(trigger: Uri, k: nat, u: Uri, c: Config)
    requires k > 0 && LevelsAreDistances(trigger, k - 1, c)
    ensures u in LevelUris(trigger, k, c) <==> Shortest(trigger, u, k, c)
  {
    NextLevel(trigger, k, u, c);
    if u in LevelUris(trigger, k, c) {
      var v :| v in LevelUris(trigger, k - 1, c) && Joined(v, u, c);
      assert Shortest(trigger, v, k - 1, c) && Walk(trigger, u, k, c);
      assert !Within(trigger, u, k - 1, c);
    }
    if Shortest(trigger, u, k, c) {
      var v :| Walk(trigger, v, k - 1, c) && Joined(v, u, c);
      forall e | 0 <= e < k - 1 ensures !Walk(trigger, v, e, c) {
        if Walk(trigger, v, e, c) { WalkOn(trigger, v, u, e, c); }
      }
      assert v in LevelUris(trigger, k - 1, c);
      assert !Within(trigger, u, k - 1, c);
    }
  }

  lemma {:induction false} FullDepths(trigger: Uri, n: nat, c: Config)
    ensures forall t :: t in Full(trigger, n, c) ==> 1 <= t.depth <= n && t in Level(trigger, t.depth, c)
  {
    if n > 0 {
      FullDepths(trigger, n - 1, c);
      SuggestedDepth(LevelUris(trigger, n - 1, c), n, c);
      FreshSelects(AllSuggested(LevelUris(trigger, n - 1, c), n, c), {trigger} + Uris(Full(trigger, n - 1, c)));
    }
  }

  lemma {:induction false} FullIsDistinct(trigger: Uri, n: nat, c: Config)
    ensures Distinct(UrisOf(Full(trigger, n, c))) && trigger !in Uris(Full(trigger, n, c))
  {
    if n > 0 {
      var before, level := Full(trigger, n - 1, c), Level(trigger, n, c);
      FullIsDistinct(trigger, n - 1, c);
      FreshSelects(AllSuggested(LevelUris(trigger, n - 1, c), n, c), {trigger} + Uris(before));
      FreshIsDistinct(AllSuggested(LevelUris(trigger, n - 1, c), n, c), {trigger} + Uris(before));
      assert UrisOf(before + level) == UrisOf(before) + UrisOf(level);
      forall i, j | 0 <= i < |before| && 0 <= j < |level| ensures UrisOf(before)[i] != UrisOf(level)[j] {
        assert before[i] in before && level[j] in level;
      }
    }
  }

  /**
    The uncapped plan is exact: it lists the URIs at distance 1 to `maxDepth`, each once and
    at its distance, and never the trigger.
  */
  lemma PlanIsExact(trigger: Uri, c: Config)
    ensures var plan := Full(trigger, c.maxDepth, c);
            && Distinct(UrisOf(plan)) && trigger !in Uris(plan)
            && (forall u, d :: (exists t :: t in plan && t.uri == u && t.depth == d)
                               <==> (1 <= d <= c.maxDepth && Shortest(trigger, u, d, c)))
  {
    var plan := Full(trigger, c.maxDepth, c);
    FullIsDistinct(trigger, c.maxDepth, c);
    FullDepths(trigger, c.maxDepth, c);
    forall u, d ensures (exists t :: t in plan && t.uri == u && t.depth == d) <==>
      (1 <= d <= c.maxDepth && Shortest(trigger, u, d, c)) {
      if t :| t in plan && t.uri == u && t.depth == d {
        LevelIsDistance(trigger, d, c);
        InLevel(trigger, d, t, c);
      }
      if 1 <= d <= c.maxDepth && Shortest(trigger, u, d, c) {
        LevelIsDistance(trigger, d, c);
        assert u in LevelUris(trigger, d, c);
        FullGrows(trigger, d, c.maxDepth, c);
        var i :| 0 <= i < |Level(trigger, d, c)| && LevelUris(trigger, d, c)[i] == u;
        var t := Level(trigger, d, c)[i];
        assert t in Full(trigger, d, c);
        FreshSelects(AllSuggested(LevelUris(trigger, d - 1, c), d, c), {trigger} + Uris(Full(trigger, d - 1, c)));
        SuggestedDepth(LevelUris(trigger, d - 1, c), d, c);
        assert t in plan && t.uri == u && t.depth == d;
      }
    }
  }

  lemma InLevel(trigger: Uri, d: nat, t: Task, c: Config)
    requires d > 0 && t in Level(trigger, d, c)
    ensures t.uri in LevelUris(trigger, d, c)
  {
    var level := Level(trigger, d, c);
    var i :| 0 <= i < |level| && level[i] == t;
    assert UrisOf(level)[i] == t.uri;
  }

  // ------------------------------------------------------------------ what is invalidated outright

  /** In a sound table there is one link to `b`, and its weight is the weight. */
  lemma LinkIsWeight(t: Table, a: Uri, b: Uri)
    requires Entanglement.Sound(t)
    ensures forall l :: l in Links(t, a) && l.partner == b ==> l.weight == Weight(t, a, b)
    ensures Weight(t, a, b) > 0.0 <==> exists l :: l in Links(t, a) && l.partner == b
  {
  }

  /** The plan invalidates exactly the partners entangled at 0.80 or more with the trigger itself. */
  lemma InvalidatedIff(trigger: Uri, u: Uri, c: Config)
    requires Entanglement.Sound(c.links) && c.maxDepth >= 1
    ensures (exists t :: t in Full(trigger, c.maxDepth, c) && t.uri == u && t.action.Invalidate?)
            <==> u != trigger && Weight(c.links, trigger, u) >= INVALIDATE && Weight(c.links, trigger, u) >= c.minimum
  {
    StrongIs(Links(c.links, trigger), c.minimum);
    LinkIsWeight(c.links, trigger, u);
    if t :| t in Full(trigger, c.maxDepth, c) && t.uri == u && t.action.Invalidate? {
      FullDepths(trigger, c.maxDepth, c);
      FullIsDistinct(trigger, c.maxDepth, c);
      LevelTask(trigger, t.depth, t, c);
    }
    if u != trigger && Weight(c.links, trigger, u) >= INVALIDATE && Weight(c.links, trigger, u) >= c.minimum {
      PartnerInvalidated(trigger, u, c);
    }
  }

  lemma PartnerInvalidated(trigger: Uri, u: Uri, c: Config)
    requires Entanglement.Sound(c.links) && c.maxDepth >= 1 && u != trigger
    requires Weight(c.links, trigger, u) >= INVALIDATE && Weight(c.links, trigger, u) >= c.minimum
    ensures exists t :: t in Full(trigger, c.maxDepth, c) && t.uri == u && t.action.Invalidate?
  {
    PlanIsExact(trigger, c);
    FullDepths(trigger, c.maxDepth, c);
    StrongIs(Links(c.links, trigger), c.minimum);
    LinkIsWeight(c.links, trigger, u);
    var l :| l in Links(c.links, trigger) && l.partner == u;
    assert l in Strong(Links(c.links, trigger), c.minimum);
    assert Walk(trigger, trigger, 0, c) && Joined(trigger, u, c);
    assert Shortest(trigger, u, 1, c);
    var t :| t in Full(trigger, c.maxDepth, c) && t.uri == u && t.depth == 1;
    LevelTask(trigger, 1, t, c);
  }

  ghost predicate Invalidates(plan: seq<Task>, u: Uri) { exists t :: t in plan && t.uri == u && t.action.Invalidate? }

  /** What the first turn adds: the trigger's own partners in their order, as far as the limit allows. */
  function Nearest(trigger: Uri, c: Config): seq<Task> { Take(Fresh(Suggested(trigger, 1, c), {trigger}), c.maxNodes) }

  /** `u` is entangled at 0.80 or more with the trigger, and among as many of its partners as the plan may hold. */
  ghost predicate InvalidatedFirst(trigger: Uri, u: Uri, c: Config)
  {
    Weight(c.links, trigger, u) >= INVALIDATE && u in Uris(Nearest(trigger, c))
  }

  ghost predicate InvalidatesFirst(plan: seq<Task>, trigger: Uri, c: Config)
  {
    forall u :: Invalidates(plan, u) <==> InvalidatedFirst(trigger, u, c)
  }

  /** Once a turn is over, the nearest come first. */
  ghost predicate NearestIn(p: Progress, trigger: Uri, c: Config)
  {
    p == Begin(trigger) || c.maxDepth == 0 || Nearest(trigger, c) <= p.tasks
  }

  lemma NearestStays(p: Progress, trigger: Uri, c: Config)
    requires NearestIn(p, trigger, c) && p.queue != []
    ensures NearestIn(Pop(p, c), trigger, c)
  {
    var v, rest := p.queue[0], p.(queue := p.queue[1..]);
    if v.depth < c.maxDepth && |p.tasks| < c.maxNodes {
      var linked := Extend(rest, Suggested(v.uri, v.depth + 1, c), true, c.maxNodes);
      ExtendOnlyAdds(rest, Suggested(v.uri, v.depth + 1, c), true, c.maxNodes);
      ExtendOnlyAdds(linked, GraphTasks(v.uri, v.depth + 1, c), false, c.maxNodes);
      if p == Begin(trigger) { NearestFirst(trigger, c); }
    }
  }

  lemma NearestFirst(trigger: Uri, c: Config)
    requires c.maxNodes > 0
    ensures Extend(Begin(trigger).(queue := []), Suggested(trigger, 1, c), true, c.maxNodes).tasks
            == Nearest(trigger, c)
  {
    var rest := Begin(trigger).(queue := []);
    ExtendIsFresh(rest, Suggested(trigger, 1, c), c.maxNodes);
    assert rest.tasks + Fresh(Suggested(trigger, 1, c), {trigger}) == Fresh(Suggested(trigger, 1, c), {trigger});
  }

  /** Capped or not, with the graph or without: only direct partners are invalidated, those that come first. */
  lemma InvalidatesIff(plan: seq<Task>, trigger: Uri, u: Uri, c: Config)
    requires Entanglement.Sound(c.links) && Safe(plan, trigger, c) && Nearest(trigger, c) <= plan
    requires |plan| <= c.maxNodes
    ensures Invalidates(plan, u) <==> InvalidatedFirst(trigger, u, c)
  {
    StrongIs(Links(c.links, trigger), c.minimum);
    LinkIsWeight(c.links, trigger, u);
    FreshSelects(Suggested(trigger, 1, c), {trigger});
    if i :| 0 <= i < |plan| && plan[i].uri == u && plan[i].action.Invalidate? {
      assert FollowsAt(plan, i, trigger, c);
      assert plan[i] in Suggested(trigger, 1, c);
      InNearest(plan, trigger, i, c);
    }
    if t :| t in Nearest(trigger, c) && t.uri == u && Weight(c.links, trigger, u) >= INVALIDATE {
      assert t in plan && t in Suggested(trigger, 1, c);
    }
  }

  lemma InvalidatesExactly(plan: seq<Task>, trigger: Uri, c: Config)
    requires Entanglement.Sound(c.links) && Safe(plan, trigger, c) && Nearest(trigger, c) <= plan
    requires |plan| <= c.maxNodes
    ensures InvalidatesFirst(plan, trigger, c)
  {
    forall u ensures Invalidates(plan, u) <==> InvalidatedFirst(trigger, u, c) { InvalidatesIff(plan, trigger, u, c); }
  }

  /** A first-level task in a plan of which the nearest are a prefix is one of them. */
  lemma InNearest(plan: seq<Task>, trigger: Uri, i: nat, c: Config)
    requires Safe(plan, trigger, c) && Nearest(trigger, c) <= plan && |plan| <= c.maxNodes
    requires i < |plan| && plan[i] in Suggested(trigger, 1, c)
    ensures plan[i].uri in Uris(Nearest(trigger, c))
  {
    var all := Fresh(Suggested(trigger, 1, c), {trigger});
    FreshSelects(Suggested(trigger, 1, c), {trigger});
    assert plan[i] in plan;
    if |all| > c.maxNodes {
      assert plan == Nearest(trigger, c);
    } else {
      assert plan[i].uri in Uris(all);
    }
  }

  /** With room for every strong partner the limit does not matter, and neither does the graph. */
  lemma InvalidatedFirstIff(trigger: Uri, u: Uri, c: Config)
    requires Entanglement.Sound(c.links) && |Strong(Links(c.links, trigger), c.minimum)| <= c.maxNodes
    ensures InvalidatedFirst(trigger, u, c) <==>
              u != trigger && Weight(c.links, trigger, u) >= INVALIDATE && Weight(c.links, trigger, u) >= c.minimum
  {
    StrongIs(Links(c.links, trigger), c.minimum);
    LinkIsWeight(c.links, trigger, u);
    FreshSelects(Suggested(trigger, 1, c), {trigger});
    FreshIsShorter(Suggested(trigger, 1, c), {trigger});
    if u != trigger && Weight(c.links, trigger, u) >= INVALIDATE && Weight(c.links, trigger, u) >= c.minimum {
      var links := Strong(Links(c.links, trigger), c.minimum);
      var i :| 0 <= i < |links| && links[i].partner == u;
      assert Suggested(trigger, 1, c)[i].uri == u;
    }
  }

  lemma {:induction false} FreshIsShorter(suggested: seq<Task>, seen: set<Uri>)
    ensures |Fresh(suggested, seen)| <= |suggested|
    decreases |suggested|
  {
    if suggested != [] {
      FreshIsShorter(suggested[1..], seen);
      FreshIsShorter(suggested[1..], seen + {suggested[0].uri});
    }
  }

  /** Where a task of a level came from. */
  lemma LevelTask(trigger: Uri, d: nat, t: Task, c: Config)
    requires d > 0 && t in Level(trigger, d, c)
    ensures t in Suggested(t.via, d, c) && t.depth == d && t.via in LevelUris(trigger, d - 1, c)
    ensures exists l :: l in Strong(Links(c.links, t.via), c.minimum) && t == TaskFor(l, t.via, d)
  {
    FreshSelects(AllSuggested(LevelUris(trigger, d - 1, c), d, c), {trigger} + Uris(Full(trigger, d - 1, c)));
    SuggestedDepth(LevelUris(trigger, d - 1, c), d, c);
    var links := Strong(Links(c.links, t.via), c.minimum);
    var i :| 0 <= i < |links| && Suggested(t.via, d, c)[i] == t;
    assert links[i] in links;
  }

  /**
    Two URIs patched together `n` times and otherwise new: one takes the other down from exactly the
    eighth time on, in the uncapped plan and in any that has room for it.
  */
  lemma InvalidatedFromEight(a: Uri, b: Uri, n: nat, c: Config)
    requires a != b && c.links == Replay(map[], CoPatches(a, b, n)) && c.maxDepth >= 1 && c.minimum <= INVALIDATE
    ensures (exists t :: t in Full(a, c.maxDepth, c) && t.uri == b && t.action.Invalidate?) <==> n >= 8
    ensures c.maxNodes >= 1 ==> (InvalidatedFirst(a, b, c) <==> n >= 8)
  {
    ReplayIsPairwise(map[], CoPatches(a, b, n), a, b);
    EightCoPatches(a, b, n);
    InvalidatedIff(a, b, c);
    OnlyPartner(a, b, n);
    StrongIsShorter(Links(c.links, a), c.minimum);
    if c.maxNodes >= 1 { InvalidatedFirstIff(a, b, c); }
  }

  lemma OnlyPartner(a: Uri, b: Uri, n: nat)
    requires a != b
    ensures |Links(Replay(map[], CoPatches(a, b, n)), a)| <= 1
  {
    var links := Replay(map[], CoPatches(a, b, n));
    var list := Links(links, a);
    ReplayIsPairwise(map[], CoPatches(a, b, n), a, b);
    forall l | l in list ensures l.partner == b {
      CoPatchesConverge(map[], CoPatches(a, b, n), a, b, n, a, l.partner);
      LinkIsWeight(links, a, l.partner);
    }
    AllTheSame(list, b);
  }

  lemma AllTheSame(list: seq<Link>, b: Uri)
    requires OneLinkEach(list) && forall l :: l in list ==> l.partner == b
    ensures |list| <= 1
  {
    if |list| > 1 { FirstTwo(list, b); }
  }

  lemma FirstTwo(list: seq<Link>, b: Uri)
    requires |list| > 1 && forall l :: l in list ==> l.partner == b
    ensures list[0].partner == b == list[1].partner
  {
    assert list[0] in list && list[1] in list;
  }

  lemma {:induction false} StrongIsShorter(list: seq<Link>, threshold: real)
    ensures |Strong(list, threshold)| <= |list|
    decreases |list|
  {
    if list != [] { StrongIsShorter(list[..|list| - 1], threshold); }
  }
}
