/**
  The cascade with the knowledge graph: what a link meets is followed, what the graph meets
  first is listed and never followed.
*/
module CascadeGraph {
  import opened Prelude
  import opened Entanglement
  import opened Cascade

  /** The graph's traversal of one step from `v` lists `u`. */
  ghost predicate Neighbour(v: Uri, u: Uri, c: Config)
  {
    c.graph.Some? && c.graph.value(v).Some? && u in c.graph.value(v).value
  }

  ghost predicate Touches(v: Uri, u: Uri, c: Config) { Joined(v, u, c) || Neighbour(v, u, c) }

  /** `v` is the trigger, or was first met over a link, at depth `d`. */
  ghost predicate Followed(tasks: seq<Task>, trigger: Uri, v: Uri, d: nat, c: Config)
  {
    (v == trigger && d == 0) || exists s :: s in tasks && s.uri == v && s.depth == d && Joined(s.via, v, c)
  }

  /** `t` was met from something followed. */
  ghost predicate Met(t: Task, tasks: seq<Task>, trigger: Uri, c: Config)
  {
    0 < t.depth <= c.maxDepth && Followed(tasks, trigger, t.via, t.depth - 1, c) && Touches(t.via, t.uri, c)
  }

  ghost predicate Handled(v: Uri, p: Progress, c: Config) { forall u :: Touches(v, u, c) ==> u in p.seen }

  /** What is followed waits in the queue or is handled, as long as the plan is not full. */
  ghost predicate Spread(p: Progress, trigger: Uri, c: Config)
  {
    && p.seen == {trigger} + Uris(p.tasks)
    && (forall t {:trigger Met(t, p.tasks, trigger, c)} :: t in p.tasks ==> Met(t, p.tasks, trigger, c))
    && (forall x :: x in p.queue ==> Followed(p.tasks, trigger, x.uri, x.depth, c))
    && (|p.tasks| < c.maxNodes ==>
          forall v, d: nat :: Followed(p.tasks, trigger, v, d, c) && d < c.maxDepth ==>
            Visit(v, d) in p.queue || Handled(v, p, c))
  }

  // ------------------------------------------------------------------ one turn

  /** What extending a plan adds: `added` is what is new. */
  ghost predicate Extends(p: Progress, q: Progress, added: seq<Task>, suggested: seq<Task>, enqueue: bool, cap: nat)
  {
    && q.tasks == p.tasks + added && q.seen == p.seen + Uris(added)
    && (forall t :: t in added ==> t in suggested && t.uri !in p.seen)
    && q.queue == p.queue + (if enqueue then QueueOf(added) else [])
    && (|q.tasks| < cap ==> forall t :: t in suggested ==> t.uri in q.seen)
  }

  lemma {:induction false} ExtendExtends(p: Progress, suggested: seq<Task>, enqueue: bool, cap: nat)
    returns (added: seq<Task>)
    ensures Extends(p, Extend(p, suggested, enqueue, cap), added, suggested, enqueue, cap)
    decreases |suggested|
  {
    if suggested == [] || |p.tasks| >= cap {
      added := [];
      assert p.tasks + [] == p.tasks && p.seen + Uris([]) == p.seen && p.queue + [] == p.queue;
      assert QueueOf([]) == [];
    } else {
      var t := suggested[0];
      var q := Added(p, t, enqueue);
      var rest := ExtendExtends(q, suggested[1..], enqueue, cap);
      added := if t.uri in p.seen then rest else [t] + rest;
      if t.uri !in p.seen { AddedFirst(p, t, rest, enqueue); }
      assert suggested == [t] + suggested[1..];
      assert t.uri in q.seen;
    }
  }

  lemma AddedFirst(p: Progress, t: Task, rest: seq<Task>, enqueue: bool)
    requires t.uri !in p.seen
    ensures var q := Added(p, t, enqueue);
            && q.tasks + rest == p.tasks + ([t] + rest) && q.seen + Uris(rest) == p.seen + Uris([t] + rest)
            && q.queue + (if enqueue then QueueOf(rest) else [])
               == p.queue + (if enqueue then QueueOf([t] + rest) else [])
  {
    UrisSplit(t, rest);
    assert QueueOf([t] + rest) == [Visit(t.uri, t.depth)] + QueueOf(rest);
  }

  lemma FollowedLater(tasks: seq<Task>, more: seq<Task>, trigger: Uri, v: Uri, d: nat, c: Config)
    requires Followed(tasks, trigger, v, d, c)
    ensures Followed(tasks + more, trigger, v, d, c)
  {
  }

  lemma GraphTaskIs(v: Uri, depth: nat, u: Uri, c: Config)
    ensures Neighbour(v, u, c) <==> exists t :: t in GraphTasks(v, depth, c) && t.uri == u
  {
    if Neighbour(v, u, c) {
      var edges := c.graph.value(v).value;
      var i :| 0 <= i < |edges| && edges[i] == u;
      assert GraphTasks(v, depth, c)[i].uri == u;
    }
  }

  /** A turn over `v`: `linked` is met over its links, `listed` in the graph. */
  ghost predicate Turned(p: Progress, q: Progress, v: Visit, linked: seq<Task>, listed: seq<Task>, c: Config)
    requires p.queue != []
  {
    && q.tasks == p.tasks + linked + listed && q.seen == p.seen + Uris(linked) + Uris(listed)
    && q.queue == p.queue[1..] + QueueOf(linked)
    && (forall t :: t in linked ==> t.via == v.uri && t.depth == v.depth + 1 && Joined(v.uri, t.uri, c))
    && (forall t :: t in listed ==>
          t.via == v.uri && t.depth == v.depth + 1 && Neighbour(v.uri, t.uri, c)
          && (|q.tasks| < c.maxNodes ==> !Joined(v.uri, t.uri, c)))
    && (|q.tasks| < c.maxNodes ==> Handled(v.uri, q, c))
  }

  lemma PopTurns(p: Progress, c: Config) returns (linked: seq<Task>, listed: seq<Task>)
    requires p.queue != [] && p.queue[0].depth < c.maxDepth && |p.tasks| < c.maxNodes
    ensures Turned(p, Pop(p, c), p.queue[0], linked, listed, c)
  {
    var v, rest := p.queue[0], p.(queue := p.queue[1..]);
    var l, g := Suggested(v.uri, v.depth + 1, c), GraphTasks(v.uri, v.depth + 1, c);
    linked := ExtendExtends(rest, l, true, c.maxNodes);
    var q := Extend(rest, l, true, c.maxNodes);
    listed := ExtendExtends(q, g, false, c.maxNodes);
    SuggestedAre(v.uri, v.depth + 1, c);
  }

  lemma SuggestedAre(v: Uri, depth: nat, c: Config)
    ensures forall u :: Joined(v, u, c) <==> exists t :: t in Suggested(v, depth, c) && t.uri == u
    ensures forall u :: Neighbour(v, u, c) <==> exists t :: t in GraphTasks(v, depth, c) && t.uri == u
  {
    forall u ensures Joined(v, u, c) <==> exists t :: t in Suggested(v, depth, c) && t.uri == u {
      SuggestedIsJoined(v, u, depth, c);
    }
    forall u ensures Neighbour(v, u, c) <==> exists t :: t in GraphTasks(v, depth, c) && t.uri == u {
      GraphTaskIs(v, depth, u, c);
    }
  }

  lemma AllMet(p: Progress, q: Progress, v: Visit, linked: seq<Task>, listed: seq<Task>, trigger: Uri, c: Config)
    requires Spread(p, trigger, c) && p.queue != [] && v == p.queue[0] && v.depth < c.maxDepth
    requires Turned(p, q, v, linked, listed, c)
    ensures forall t {:trigger Met(t, q.tasks, trigger, c)} :: t in q.tasks ==> Met(t, q.tasks, trigger, c)
  {
    var more := linked + listed;
    assert q.tasks == p.tasks + more && v in p.queue;
    FollowedLater(p.tasks, more, trigger, v.uri, v.depth, c);
    forall t | t in q.tasks ensures Met(t, q.tasks, trigger, c) {
      if t in p.tasks {
        assert Met(t, p.tasks, trigger, c);
        FollowedLater(p.tasks, more, trigger, t.via, t.depth - 1, c);
      }
    }
  }

  lemma AllFollowed(p: Progress, q: Progress, v: Visit, linked: seq<Task>, listed: seq<Task>, trigger: Uri, c: Config)
    requires Spread(p, trigger, c) && p.queue != [] && v == p.queue[0] && Turned(p, q, v, linked, listed, c)
    ensures forall x :: x in q.queue ==> Followed(q.tasks, trigger, x.uri, x.depth, c)
  {
    var more := linked + listed;
    assert q.tasks == p.tasks + more;
    forall x | x in q.queue ensures Followed(q.tasks, trigger, x.uri, x.depth, c) {
      if x in p.queue[1..] {
        assert x in p.queue;
        FollowedLater(p.tasks, more, trigger, x.uri, x.depth, c);
      } else {
        var i :| 0 <= i < |linked| && QueueOf(linked)[i] == x;
        assert linked[i] in linked && linked[i] in q.tasks;
      }
    }
  }

  lemma TurnSpreads(p: Progress, q: Progress, v: Visit, linked: seq<Task>, listed: seq<Task>, trigger: Uri, c: Config)
    requires Spread(p, trigger, c) && p.queue != [] && v == p.queue[0] && v.depth < c.maxDepth
    requires |p.tasks| < c.maxNodes && Turned(p, q, v, linked, listed, c)
    ensures Spread(q, trigger, c)
  {
    var more := linked + listed;
    assert q.tasks == p.tasks + more;
    assert Uris(q.tasks) == Uris(p.tasks) + Uris(linked) + Uris(listed);
    AllMet(p, q, v, linked, listed, trigger, c);
    AllFollowed(p, q, v, linked, listed, trigger, c);
    if |q.tasks| < c.maxNodes {
      forall w, d: nat | Followed(q.tasks, trigger, w, d, c) && d < c.maxDepth
        ensures Visit(w, d) in q.queue || Handled(w, q, c)
      {
        StillSpread(p, q, v, linked, listed, trigger, w, d, c);
      }
    }
  }

  lemma StillSpread(p: Progress, q: Progress, v: Visit, linked: seq<Task>, listed: seq<Task>,
                    trigger: Uri, w: Uri, d: nat, c: Config)
    requires Spread(p, trigger, c) && p.queue != [] && v == p.queue[0] && |p.tasks| < c.maxNodes
    requires Turned(p, q, v, linked, listed, c) && |q.tasks| < c.maxNodes
    requires Followed(q.tasks, trigger, w, d, c) && d < c.maxDepth
    ensures Visit(w, d) in q.queue || Handled(w, q, c)
  {
    if Followed(p.tasks, trigger, w, d, c) {
      if Visit(w, d) in p.queue && Visit(w, d) != v {
        var i :| 0 <= i < |p.queue| && p.queue[i] == Visit(w, d);
        assert p.queue[1..][i - 1] == Visit(w, d);
      }
    } else {
      var s :| s in q.tasks && s.uri == w && s.depth == d && Joined(s.via, w, c);
      assert s !in listed;
      var i :| 0 <= i < |linked| && linked[i] == s;
      assert QueueOf(linked)[i] == Visit(w, d);
    }
  }

  lemma PopSpreads(p: Progress, trigger: Uri, c: Config)
    requires Spread(p, trigger, c) && p.queue != [] && |p.tasks| <= c.maxNodes
    ensures Spread(Pop(p, c), trigger, c)
  {
    var v := p.queue[0];
    if v.depth < c.maxDepth && |p.tasks| < c.maxNodes {
      var linked, listed := PopTurns(p, c);
      TurnSpreads(p, Pop(p, c), v, linked, listed, trigger, c);
    } else {
      var q := Pop(p, c);
      assert p.queue == [v] + q.queue;
    }
  }

  lemma {:induction false} FinishedSpreads(p: Progress, trigger: Uri, c: Config)
    requires Spread(p, trigger, c) && |p.tasks| <= c.maxNodes
    ensures var q := Finished(p, c); Spread(q, trigger, c) && q.queue == []
    decreases c.maxNodes - |p.tasks|, |p.queue|
  {
    if p.queue != [] {
      PopShrinks(p, c);
      PopSpreads(p, trigger, c);
      FinishedSpreads(Pop(p, c), trigger, c);
    }
  }

  /**
    A plan that is not full holds exactly what touches something followed: the links of the
    trigger and of whatever was first met over a link, and their neighbours in the graph.
  */
  lemma PlanWithGraph(trigger: Uri, u: Uri, c: Config)
    requires |Finished(Begin(trigger), c).tasks| < c.maxNodes
    ensures var plan := Finished(Begin(trigger), c).tasks;
            u in Uris(plan) <==>
            u != trigger && exists v, d: nat :: Followed(plan, trigger, v, d, c) && d < c.maxDepth && Touches(v, u, c)
  {
    var p := Finished(Begin(trigger), c);
    FinishedSpreads(Begin(trigger), trigger, c);
    NeverTheTrigger(Begin(trigger), trigger, c);
    if t :| t in p.tasks && t.uri == u { assert Met(t, p.tasks, trigger, c); }
  }

  /** The trigger, seen from the start, is never planned. */
  lemma {:induction false} NeverTheTrigger(p: Progress, trigger: Uri, c: Config)
    requires Cascade.Sound(p, trigger, c)
    ensures trigger !in Uris(Finished(p, c).tasks)
    decreases c.maxNodes - |p.tasks|, |p.queue|
  {
    if p.queue != [] {
      PopShrinks(p, c);
      PopKeepsSound(p, trigger, c);
      NeverTheTrigger(Pop(p, c), trigger, c);
    }
  }

  // ------------------------------------------------------------------ a URI the graph hides

  const STEP: real := 0.6

  /** 0 is linked to 1, 1 to 2 and 2 to 3. */
  const LINKS: Table := map[
    Uri(0) := [Link(Uri(1), STEP, OneWay)],
    Uri(1) := [Link(Uri(2), STEP, OneWay)],
    Uri(2) := [Link(Uri(3), STEP, OneWay)]]

  /** In the graph 0 leads to 2. */
  function Edges(u: Uri): Option<seq<Uri>> { Some(if u == Uri(0) then [Uri(2)] else []) }

  const WITHOUT := Config(3, 9, 0.5, LINKS, None)
  const WITH := Config(3, 9, 0.5, LINKS, Some(Edges))

  lemma LinkOf(u: Uri)
    ensures Strong(Links(LINKS, u), 0.5) == if u.id <= 2 then [Link(Uri(u.id + 1), STEP, OneWay)] else []
  {
    var list := Links(LINKS, u);
    assert u.id <= 2 ==> u == Uri(0) || u == Uri(1) || u == Uri(2);
    assert list == if u.id <= 2 then [Link(Uri(u.id + 1), STEP, OneWay)] else [];
    if list != [] { OneIsStrong(list[0]); }
  }

  lemma OneIsStrong(l: Link)
    requires l.weight >= 0.5
    ensures Strong([l], 0.5) == [l]
  {
    assert [l][..0] == [];
  }

  lemma JoinedIs(v: Uri, u: Uri)
    ensures Joined(v, u, WITHOUT) <==> v.id <= 2 && u == Uri(v.id + 1)
  {
    LinkOf(v);
  }

  lemma {:induction false} ChainWalks(u: Uri, d: nat)
    ensures Walk(Uri(0), u, d, WITHOUT) <==> d <= 3 && u == Uri(d)
    decreases d
  {
    if d > 0 {
      if v :| Walk(Uri(0), v, d - 1, WITHOUT) && Joined(v, u, WITHOUT) {
        ChainWalks(v, d - 1);
        JoinedIs(v, u);
      }
      ChainWalks(Uri(d - 1), d - 1);
      JoinedIs(Uri(d - 1), u);
    }
  }

  /** The first turn: 1 over the link, 2 in the graph. */
  lemma TurnOne()
    ensures var l, g := Task(Uri(1), 1, Revalidate, Uri(0)), Task(Uri(2), 1, Revalidate, Uri(0));
            Pop(Begin(Uri(0)), WITH) == Progress([l, g], [Visit(Uri(1), 1)], {Uri(0), Uri(1), Uri(2)})
  {
    LinkOf(Uri(0));
    var l, g := Task(Uri(1), 1, Revalidate, Uri(0)), Task(Uri(2), 1, Revalidate, Uri(0));
    var rest := Begin(Uri(0)).(queue := []);
    assert Begin(Uri(0)).queue[1..] == [];
    assert Suggested(Uri(0), 1, WITH) == [l];
    assert GraphTasks(Uri(0), 1, WITH) == [g];
    ExtendOne(rest, l, true, 9);
    ExtendOne(Added(rest, l, true), g, false, 9);
  }

  lemma ExtendOne(p: Progress, t: Task, enqueue: bool, cap: nat)
    requires |p.tasks| < cap
    ensures Extend(p, [t], enqueue, cap) == Added(p, t, enqueue)
  {
    assert [t][1..] == [];
  }

  /** The second turn: the link from 1 finds 2 seen. */
  lemma TurnTwo(p: Progress)
    requires |p.tasks| == 2 && p.queue == [Visit(Uri(1), 1)] && p.seen == {Uri(0), Uri(1), Uri(2)}
    ensures Pop(p, WITH) == p.(queue := [])
  {
    LinkOf(Uri(1));
    var l := Task(Uri(2), 2, Revalidate, Uri(1));
    assert Suggested(Uri(1), 2, WITH) == [l] && GraphTasks(Uri(1), 2, WITH) == [];
    assert p.queue[1..] == [];
    ExtendOne(p.(queue := []), l, true, 9);
  }

  lemma ThreeIsPlanned()
    ensures Uri(3) in Uris(Full(Uri(0), 3, WITHOUT))
  {
    ChainWalks(Uri(3), 3);
    forall e: nat | e < 3 ensures !Walk(Uri(0), Uri(3), e, WITHOUT) { ChainWalks(Uri(3), e); }
    PlanIsExact(Uri(0), WITHOUT);
    assert Shortest(Uri(0), Uri(3), 3, WITHOUT);
  }

  /** Three links away and within the depth, 3 is planned; let the graph list 2 as well, and it is not. */
  lemma GraphHides()
    ensures Uri(3) in Uris(Full(Uri(0), 3, WITHOUT))
    ensures var plan := Finished(Begin(Uri(0)), WITH).tasks; Uri(2) in Uris(plan) && Uri(3) !in Uris(plan)
  {
    ThreeIsPlanned();
    TurnOne();
    var p := Pop(Begin(Uri(0)), WITH);
    TurnTwo(p);
    assert Finished(p, WITH) == Finished(p.(queue := []), WITH) == p.(queue := []);
    assert p.tasks[1].uri == Uri(2) && p.tasks[1] in p.tasks;
  }
}
