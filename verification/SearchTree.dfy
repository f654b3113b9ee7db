/**
  The cognitive tree search: selection, expansion, rollout and backup over a tree of projected
  states.
*/
module SearchTree {
  import opened Prelude
  import opened Policy

  // ------------------------------------------------------------------ the tree

  /**
    What a search is built from.  `actions` may answer differently at every ticket, as a language
    model does; `bonus` is the exploration term of the PUCT score, given a child's prior, the
    visits of its parent and its own.
  */
  datatype Settings = Settings(
    branchingFactor: nat,
    maxDepth: nat,
    rolloutDepth: nat,
    bonus: (real, nat, nat) -> real,
    value: CognitiveState -> real,
    predict: (CognitiveState, ActionCandidate) -> CognitiveState,
    actions: (CognitiveState, nat, (nat, nat)) -> seq<ActionCandidate>)

  /**
    The builders keep both bounds positive; values are in the unit interval; there is always something
    to try; a projection moves the graph density alone.
  */
  ghost predicate Lawful(env: Settings)
  {
    && env.branchingFactor >= 1 && env.maxDepth >= 1
    && (forall s :: 0.0 <= env.value(s) <= 1.0)
    && (forall s, d, t :: env.actions(s, d, t) != [])
    && (forall s, a :: SameBeliefs(env.predict(s, a), s))
  }

  ghost predicate SameBeliefs(s: CognitiveState, t: CognitiveState)
  {
    s.recentErrors == t.recentErrors && s.activeHypotheses == t.activeHypotheses && s.avgConfidence == t.avgConfidence
  }

  /** `CognitiveTreeSearch` with the built-in policy and value, and `suggest` for the language model. */
  function Cognitive(branchingFactor: nat, maxDepth: nat, rolloutDepth: nat, bonus: (real, nat, nat) -> real,
                     suggest: (CognitiveState, nat, (nat, nat)) -> Option<seq<ActionCandidate>>): Settings
  {
    Settings(if branchingFactor >= 1 then branchingFactor else 1, if maxDepth >= 1 then maxDepth
      else 1, rolloutDepth, bonus,
             Composite, Predict, (s: CognitiveState, d: nat, t: (nat, nat)) => ExpandActions(s, suggest(s, d, t)))
  }

  lemma CognitiveIsLawful(branchingFactor: nat, maxDepth: nat, rolloutDepth: nat, bonus: (real, nat, nat) -> real,
                          suggest: (CognitiveState, nat, (nat, nat)) -> Option<seq<ActionCandidate>>)
    ensures Lawful(Cognitive(branchingFactor, maxDepth, rolloutDepth, bonus, suggest))
  {
    var env := Cognitive(branchingFactor, maxDepth, rolloutDepth, bonus, suggest);
    forall s, d, t ensures env.actions(s, d, t) != [] {
      assert env.actions(s, d, t) == ExpandActions(s, suggest(s, d, t));
    }
  }

  datatype Node = Node(
    state: CognitiveState,
    prior: real,
    children: seq<Node>,
    depth: nat,
    visits: nat,
    valueSum: real)

  function MeanValue(n: Node, env: Settings): real
  {
    if n.visits == 0 then env.value(n.state) else n.valueSum / n.visits as real
  }

  function Take<T>(xs: seq<T>, n: nat): seq<T> { if |xs| <= n then xs else xs[..n] }

  function NewChild(parent: Node, a: ActionCandidate, env: Settings): Node
  {
    Node(env.predict(parent.state, a), a.prior, [], parent.depth + 1, 0, 0.0)
  }

  function Expand(n: Node, sim: nat, env: Settings): Node
  {
    var actions := Take(env.actions(n.state, n.depth, (sim, 0)), env.branchingFactor);
    n.(children := seq(|actions|, i requires 0 <= i < |actions| => NewChild(n, actions[i], env)))
  }

  function Priors(actions: seq<ActionCandidate>): (r: seq<real>)
  {
    seq(|actions|, i requires 0 <= i < |actions| => actions[i].prior)
  }

  function Puct(parent: Node, child: Node, env: Settings): real
  {
    MeanValue(child, env) + env.bonus(child.prior, if parent.visits >= 1 then parent.visits else 1, child.visits)
  }

  function PuctScores(n: Node, env: Settings): (r: seq<real>)
  {
    seq(|n.children|, i requires 0 <= i < |n.children| => Puct(n, n.children[i], env))
  }

  function SelectChild(n: Node, env: Settings): (i: nat)
    requires n.children != []
    ensures i < |n.children|
  {
    ArgMax(PuctScores(n, env))
  }

  /** The child taken has the greatest score, and is the last of those that share it. */
  lemma SelectsTheBest(n: Node, j: nat, env: Settings)
    requires j < |n.children|
    ensures Puct(n, n.children[j], env) <= Puct(n, n.children[SelectChild(n, env)], env)
    ensures j > SelectChild(n, env) ==> Puct(n, n.children[j], env) < Puct(n, n.children[SelectChild(n, env)], env)
  {
    assert PuctScores(n, env)[j] == Puct(n, n.children[j], env);
  }

  /** One rollout step: the likeliest action, projected. */
  function Follow(s: CognitiveState, d: nat, sim: nat, env: Settings): CognitiveState
  {
    var actions := env.actions(s, d, (sim, d + 1));
    if actions == [] then s else env.predict(s, actions[ArgMax(Priors(actions))])
  }

  function Weigh(total: real, value: real, weight: real): real { total + value * weight }

  function WeightedMean(total: real, norm: real): (r: real)
    ensures 0.0 <= r <= 1.0
  {
    if norm == 0.0 then 0.0 else Clamp(total / norm)
  }

  /** The rollout from its `d`-th step on. */
  function RolloutFrom(current: CognitiveState, total: real, weight: real, norm: real, d: nat, sim: nat,
    env: Settings): (r: real)
    ensures 0.0 <= r <= 1.0
    decreases env.rolloutDepth - d
  {
    if d >= env.rolloutDepth || env.actions(current, d, (sim, d + 1)) == [] then WeightedMean(total, norm)
    else
      var next := Follow(current, d, sim, env);
      RolloutFrom(next, Weigh(total, env.value(next), weight * 0.72), weight * 0.72, norm + weight * 0.72, d + 1, sim,
        env)
  }

  function Rollout(s: CognitiveState, sim: nat, env: Settings): (r: real)
    ensures 0.0 <= r <= 1.0
  {
    RolloutFrom(s, env.value(s), 1.0, 1.0, 0, sim, env)
  }

  /** `rollout_value` as its loop. */
  method RolloutValue(s: CognitiveState, sim: nat, env: Settings) returns (value: real)
    ensures value == Rollout(s, sim, env) && 0.0 <= value <= 1.0
  {
    var current := s;
    var total, weight, norm := env.value(s), 1.0, 1.0;
    var d := 0;
    while d < env.rolloutDepth && env.actions(current, d, (sim, d + 1)) != []
      invariant 0 <= d
      invariant RolloutFrom(current, total, weight, norm, d, sim, env) == Rollout(s, sim, env)
      decreases env.rolloutDepth - d
    {
      current := Follow(current, d, sim, env);
      weight := weight * 0.72;
      total := Weigh(total, env.value(current), weight);
      norm := norm + weight;
      d := d + 1;
    }
    value := WeightedMean(total, norm);
  }

  function Backup(n: Node, value: real): Node { n.(visits := n.visits + 1, valueSum := n.valueSum + value) }

  /** `simulate`: the node afterwards, and the value backed up through it. */
  function Simulate(n: Node, sim: nat, env: Settings): (r: (Node, real))
    decreases n
  {
    if n.depth >= env.maxDepth then
      (Backup(n, env.value(n.state)), env.value(n.state))
    else if n.children == [] then
      var v := Rollout(n.state, sim, env);
      (Backup(Expand(n, sim, env), v), v)
    else
      var i := SelectChild(n, env);
      var (child, v) := Simulate(n.children[i], sim, env);
      (Backup(n.(children := n.children[i := child]), v), v)
  }

  // ------------------------------------------------------------------ conservation

  function SumVisits(nodes: seq<Node>): nat
  {
    if nodes == [] then 0 else SumVisits(nodes[..|nodes| - 1]) + nodes[|nodes| - 1].visits
  }

  function SumValues(nodes: seq<Node>): real
  {
    if nodes == [] then 0.0 else SumValues(nodes[..|nodes| - 1]) + nodes[|nodes| - 1].valueSum
  }

  function Times(n: nat, v: real): real { if n == 0 then 0.0 else Times(n - 1, v) + v }

  /** A node's own share of its value is one rollout from its state. */
  ghost predicate OwnShare(n: Node, env: Settings)
  {
    exists sim: nat :: n.valueSum - SumValues(n.children) == Rollout(n.state, sim, env)
  }

  ghost predicate Conserved(n: Node, initial: CognitiveState, env: Settings)
    decreases n
  {
    && n.depth <= env.maxDepth && |n.children| <= env.branchingFactor
    && SameBeliefs(n.state, initial)
    && 0.0 <= n.valueSum <= n.visits as real
    && (forall i :: 0 <= i < |n.children| ==>
      n.children[i].depth == n.depth + 1 && Conserved(n.children[i], initial, env))
    && (if n.depth == env.maxDepth then n.children == [] && n.valueSum == Times(n.visits, env.value(n.state))
        else if n.children == [] then n.visits == 0 && n.valueSum == 0.0
        else n.visits == 1 + SumVisits(n.children) && OwnShare(n, env))
  }

  lemma {:induction false} SumUpdate(nodes: seq<Node>, i: nat, n: Node)
    requires i < |nodes|
    ensures SumVisits(nodes[i := n]) == SumVisits(nodes) - nodes[i].visits + n.visits
    ensures SumValues(nodes[i := n]) == SumValues(nodes) - nodes[i].valueSum + n.valueSum
    decreases |nodes|
  {
    var k := |nodes| - 1;
    if i < k {
      assert nodes[i := n][..k] == nodes[..k][i := n];
      SumUpdate(nodes[..k], i, n);
    } else {
      assert nodes[i := n][..k] == nodes[..k];
    }
  }

  lemma {:induction false} SumOfUnvisited(nodes: seq<Node>)
    requires forall i :: 0 <= i < |nodes| ==> nodes[i].visits == 0 && nodes[i].valueSum == 0.0
    ensures SumVisits(nodes) == 0 && SumValues(nodes) == 0.0
    decreases |nodes|
  {
    if nodes != [] { SumOfUnvisited(nodes[..|nodes| - 1]); }
  }

  lemma ExpandConserved(n: Node, sim: nat, initial: CognitiveState, env: Settings)
    requires Conserved(n, initial, env) && Lawful(env) && n.depth < env.maxDepth && n.children == []
    ensures Conserved(Simulate(n, sim, env).0, initial, env)
    ensures 0.0 <= Simulate(n, sim, env).1 <= 1.0
  {
    var v := Rollout(n.state, sim, env);
    var grown := Expand(n, sim, env);
    SumOfUnvisited(grown.children);
    forall i | 0 <= i < |grown.children| ensures Conserved(grown.children[i], initial, env) {
      assert grown.children[i].children == [] && grown.children[i].visits == 0;
    }
    assert Backup(grown, v).valueSum - SumValues(grown.children) == Rollout(n.state, sim, env);
  }

  /** One simulation: one more visit, the value it returns backed up, and every node of the tree still balanced. */
  lemma {:induction false} SimulateConserves(n: Node, sim: nat, initial: CognitiveState, env: Settings)
    requires Conserved(n, initial, env) && Lawful(env)
    ensures var (t, v) := Simulate(n, sim, env);
            && Conserved(t, initial, env)
            && t.visits == n.visits + 1 && t.valueSum == n.valueSum + v && 0.0 <= v <= 1.0
            && t.state == n.state && t.depth == n.depth
    decreases n
  {
    var (t, v) := Simulate(n, sim, env);
    if n.depth >= env.maxDepth {
      assert Times(t.visits, env.value(n.state)) == n.valueSum + v;
    } else if n.children == [] {
      ExpandConserved(n, sim, initial, env);
    } else {
      var i := SelectChild(n, env);
      SimulateConserves(n.children[i], sim, initial, env);
      BackupConserves(n, i, Simulate(n.children[i], sim, env).0, v, initial, env);
    }
  }

  lemma BackupConserves(n: Node, i: nat, child: Node, v: real, initial: CognitiveState, env: Settings)
    requires Conserved(n, initial, env) && i < |n.children| && n.depth < env.maxDepth
    requires Conserved(child, initial, env) && child.depth == n.depth + 1
    requires child.visits == n.children[i].visits + 1 && child.valueSum == n.children[i].valueSum + v && 0.0 <= v <= 1.0
    ensures Conserved(Backup(n.(children := n.children[i := child]), v), initial, env)
  {
    SumUpdate(n.children, i, child);
    OwnShareKept(n, Backup(n.(children := n.children[i := child]), v), env);
  }

  lemma OwnShareKept(n: Node, t: Node, env: Settings)
    requires OwnShare(n, env) && t.state == n.state
    requires t.valueSum - SumValues(t.children) == n.valueSum - SumValues(n.children)
    ensures OwnShare(t, env)
  {
    var sim: nat :| n.valueSum - SumValues(n.children) == Rollout(n.state, sim, env);
  }

  /** The `k` simulations of a search, one after another. */
  function SearchFrom(root: Node, k: nat, env: Settings): Node
  {
    if k == 0 then root else Simulate(SearchFrom(root, k - 1, env), k - 1, env).0
  }

  function NewRoot(initial: CognitiveState): Node { Node(initial, 1.0, [], 0, 0, 0.0) }

  /** `search`: as many root visits as simulations, and a balanced tree. */
  method Search(initial: CognitiveState, simulations: nat, env: Settings) returns (root: Node)
    requires Lawful(env)
    ensures root == SearchFrom(NewRoot(initial), simulations, env)
    ensures root.visits == simulations && Conserved(root, initial, env) && root.state == initial
  {
    root := NewRoot(initial);
    for k := 0 to simulations
      invariant root == SearchFrom(NewRoot(initial), k, env)
      invariant root.visits == k && Conserved(root, initial, env) && root.state == initial
    {
      SimulateConserves(root, k, initial, env);
      var r := Simulate(root, k, env);
      root := r.0;
    }
  }

  // ------------------------------------------------------------------ one visit on each level

  /** The visits of all nodes `d` levels below `n`. */
  function LevelVisits(n: Node, d: nat): nat
    decreases n, 0
  {
    if d == 0 then n.visits else LevelSum(n.children, d - 1)
  }

  function LevelSum(nodes: seq<Node>, d: nat): nat
    decreases nodes, |nodes|
  {
    if nodes == [] then 0 else LevelSum(nodes[..|nodes| - 1], d) + LevelVisits(nodes[|nodes| - 1], d)
  }

  lemma {:induction false} LevelUpdate(nodes: seq<Node>, i: nat, n: Node, d: nat)
    requires i < |nodes|
    ensures LevelSum(nodes[i := n], d) == LevelSum(nodes, d) - LevelVisits(nodes[i], d) + LevelVisits(n, d)
    decreases |nodes|
  {
    var k := |nodes| - 1;
    if i < k {
      assert nodes[i := n][..k] == nodes[..k][i := n];
      LevelUpdate(nodes[..k], i, n, d);
    } else {
      assert nodes[i := n][..k] == nodes[..k];
    }
  }

  lemma {:induction false} NewLevelsAreUnvisited(nodes: seq<Node>, d: nat)
    requires forall i :: 0 <= i < |nodes| ==> nodes[i].visits == 0 && nodes[i].children == []
    ensures LevelSum(nodes, d) == 0
    decreases |nodes|
  {
    if nodes != [] {
      NewLevelsAreUnvisited(nodes[..|nodes| - 1], d);
      assert d > 0 ==> LevelSum(nodes[|nodes| - 1].children, d - 1) == 0;
    }
  }

  /** A simulation adds one visit to its node, and at most one on every level below. */
  lemma {:induction false} OneVisitPerLevel(n: Node, sim: nat, d: nat, env: Settings)
    ensures var t := Simulate(n, sim, env).0;
            && LevelVisits(n, d) <= LevelVisits(t, d) <= LevelVisits(n, d) + 1
            && (d == 0 ==> LevelVisits(t, 0) == LevelVisits(n, 0) + 1)
    decreases n, d
  {
    if d > 0 && n.depth < env.maxDepth {
      if n.children == [] {
        NewLevelsAreUnvisited(Expand(n, sim, env).children, d - 1);
      } else {
        var i := SelectChild(n, env);
        OneVisitPerLevel(n.children[i], sim, d - 1, env);
        LevelUpdate(n.children, i, Simulate(n.children[i], sim, env).0, d - 1);
      }
    }
  }

  /** So after `k` simulations no level has more than `k` visits, and the root has all of them. */
  lemma {:induction false} LevelsHoldSimulations(initial: CognitiveState, k: nat, d: nat, env: Settings)
    ensures LevelVisits(SearchFrom(NewRoot(initial), k, env), d) <= k
    ensures d == 0 ==> LevelVisits(SearchFrom(NewRoot(initial), k, env), d) == k
    decreases k
  {
    if k > 0 {
      LevelsHoldSimulations(initial, k - 1, d, env);
      OneVisitPerLevel(SearchFrom(NewRoot(initial), k - 1, env), k - 1, d, env);
    }
  }

  /** The nodes of a tree. */
  ghost predicate Within(n: Node, root: Node)
    decreases root
  {
    n == root || exists i :: 0 <= i < |root.children| && Within(n, root.children[i])
  }

  /** Everything about one node of a searched tree, wherever it is. */
  lemma {:induction false} EveryNodeBalanced(n: Node, root: Node, initial: CognitiveState, env: Settings)
    requires Conserved(root, initial, env) && Lawful(env) && Within(n, root)
    ensures Conserved(n, initial, env) && 0.0 <= MeanValue(n, env) <= 1.0
    ensures n.visits <= root.visits
    decreases root
  {
    if n != root {
      var i :| 0 <= i < |root.children| && Within(n, root.children[i]);
      EveryNodeBalanced(n, root.children[i], initial, env);
      ChildVisits(root.children, i);
    } else if n.visits > 0 {
      QuotientInUnit(n.valueSum, n.visits as real);
    }
  }

  lemma {:induction false} ChildVisits(nodes: seq<Node>, i: nat)
    requires i < |nodes|
    ensures nodes[i].visits <= SumVisits(nodes)
    decreases |nodes|
  {
    if i < |nodes| - 1 { ChildVisits(nodes[..|nodes| - 1], i); }
  }

  // ------------------------------------------------------------------ paths

  function ScoreForPath(n: Node, env: Settings): real
  {
    MeanValue(n, env) + n.visits as real * 0.001 + n.depth as real * 0.0005
  }

  /** Each node of a path is one of the children of the one before. */
  ghost predicate Descends(path: seq<Node>, choose: seq<Node> -> Option<nat>)
    decreases |path|
  {
    |path| <= 1 || (Descends(path[..|path| - 1], choose) && Chosen(path[|path| - 2], path[|path| - 1], choose))
  }

  ghost predicate Chosen(parent: Node, child: Node, choose: seq<Node> -> Option<nat>)
  {
    var c := choose(parent.children);
    c.Some? && c.value < |parent.children| && child == parent.children[c.value]
  }

  /** `path_by`: follow the choice down until there is none. */
  method PathBy(choose: seq<Node> -> Option<nat>, root: Node) returns (path: seq<Node>)
    ensures path != [] && path[0] == root && Descends(path, choose)
    ensures var last := path[|path| - 1].children;
            last == [] || choose(last).None? || choose(last).value >= |last|
  {
    path := [root];
    var node := root;
    while node.children != []
      invariant path != [] && path[0] == root && path[|path| - 1] == node && Descends(path, choose)
      decreases node
    {
      var idx := choose(node.children);
      if idx.None? || idx.value >= |node.children| { break; }
      var child := node.children[idx.value];
      assert (path + [child])[..|path|] == path;
      path := path + [child];
      node := child;
    }
  }

  function PathScores(nodes: seq<Node>, env: Settings): (r: seq<real>)
  {
    seq(|nodes|, i requires 0 <= i < |nodes| => ScoreForPath(nodes[i], env))
  }

  /** The choices of the best and of the worst path. */
  function Best(env: Settings): seq<Node> -> Option<nat>
  {
    nodes => if nodes == [] then None else Some(ArgMax(PathScores(nodes, env)))
  }

  function Worst(env: Settings): seq<Node> -> Option<nat>
  {
    nodes => if nodes == [] then None else Some(ArgMin(PathScores(nodes, env)))
  }

  /**
    `search` as a whole: the tree, and its best and worst paths down to a leaf, neither longer than
    the depth allows.
  */
  method SearchPaths(initial: CognitiveState, simulations: nat, env: Settings)
    returns (root: Node, best: seq<Node>, worst: seq<Node>)
    requires Lawful(env)
    ensures root.visits == simulations && Conserved(root, initial, env) && root.state == initial
    ensures best != [] && best[0] == root && Descends(best, Best(env)) && best[|best| - 1].children == []
    ensures worst != [] && worst[0] == root && Descends(worst, Worst(env)) && worst[|worst| - 1].children == []
    ensures root.depth + |best| <= env.maxDepth + 1 && root.depth + |worst| <= env.maxDepth + 1
    ensures forall n :: n in best || n in worst ==> Conserved(n, initial, env)
  {
    root := Search(initial, simulations, env);
    best := PathBy(Best(env), root);
    worst := PathBy(Worst(env), root);
    PathIsBounded(best, Best(env), initial, env);
    PathIsBounded(worst, Worst(env), initial, env);
    PathIsConserved(best, Best(env), initial, env);
    PathIsConserved(worst, Worst(env), initial, env);
  }

  /** A path through a conserved tree is as deep as it is long, so it never has more than `maxDepth` steps. */
  lemma {:induction false} PathIsBounded(path: seq<Node>, choose: seq<Node> -> Option<nat>, initial: CognitiveState,
    env: Settings)
    requires path != [] && Descends(path, choose) && Conserved(path[0], initial, env)
    ensures var last := path[|path| - 1]; Conserved(last, initial, env) && last.depth == path[0].depth + |path| - 1
    ensures path[0].depth + |path| <= env.maxDepth + 1
    decreases |path|
  {
    if |path| > 1 {
      var front := path[..|path| - 1];
      PathIsBounded(front, choose, initial, env);
      assert front[|front| - 1] == path[|path| - 2];
    }
  }

  lemma {:induction false} PathIsConserved(path: seq<Node>, choose: seq<Node> -> Option<nat>, initial: CognitiveState,
    env: Settings)
    requires path != [] && Descends(path, choose) && Conserved(path[0], initial, env)
    ensures forall n :: n in path ==> Conserved(n, initial, env)
    decreases |path|
  {
    PathIsBounded(path, choose, initial, env);
    if |path| > 1 {
      PathIsConserved(path[..|path| - 1], choose, initial, env);
      assert path == path[..|path| - 1] + [path[|path| - 1]];
    }
  }

  function Discount(k: nat): (r: real)
    ensures r > 0.0
  {
    if k == 0 then 1.0 else Discount(k - 1) * 0.85
  }

  /** The discounted means of the first `k` steps below the root, and the discounts alone. */
  function DiscountedMeans(path: seq<Node>, k: nat, env: Settings): real
    requires k < |path|
  {
    if k == 0 then 0.0 else Weigh(DiscountedMeans(path, k - 1, env), MeanValue(path[k], env), Discount(k - 1))
  }

  function Discounts(k: nat): (r: real)
    ensures r >= 0.0 && (k > 0 ==> r >= 1.0)
  {
    if k == 0 then 0.0 else Discounts(k - 1) + Discount(k - 1)
  }

  /** `path_value`, the discounted mean over the path without its root; a lone root counts for itself. */
  method PathValue(path: seq<Node>, env: Settings) returns (value: real)
    ensures path == [] ==> value == 0.0
    ensures |path| == 1 ==> value == MeanValue(path[0], env)
    ensures |path| > 1 ==> value == Clamp(DiscountedMeans(path, |path| - 1, env) / Discounts(|path| - 1))
  {
    if path == [] { return 0.0; }
    var total, weight, norm := 0.0, 1.0, 0.0;
    var i := 1;
    while i < |path|
      invariant 1 <= i <= |path|
      invariant weight == Discount(i - 1) && norm == Discounts(i - 1) && total == DiscountedMeans(path, i - 1, env)
    {
      total := Weigh(total, MeanValue(path[i], env), weight);
      norm := norm + weight;
      weight := weight * 0.85;
      i := i + 1;
    }
    value := if norm <= F32_EPSILON then MeanValue(path[|path| - 1], env) else WeightedMean(total, norm);
  }

  ghost predicate Between(total: real, norm: real, lo: real, hi: real) { lo * norm <= total <= hi * norm }

  /** The value of a path lies between the least and the greatest mean on it; the clamp never acts. */
  lemma PathValueBetween(path: seq<Node>, k: nat, lo: real, hi: real, env: Settings)
    requires 0 < k < |path| && 0.0 <= lo <= hi <= 1.0
    requires forall i :: 0 < i < |path| ==> lo <= MeanValue(path[i], env) <= hi
    ensures lo <= DiscountedMeans(path, k, env) / Discounts(k) <= hi
  {
    DiscountedBetween(path, k, lo, hi, env);
    DivideBounds(DiscountedMeans(path, k, env), Discounts(k), lo, hi);
  }

  lemma {:induction false} DiscountedBetween(path: seq<Node>, k: nat, lo: real, hi: real, env: Settings)
    requires k < |path|
    requires forall i :: 0 < i < |path| ==> lo <= MeanValue(path[i], env) <= hi
    ensures Between(DiscountedMeans(path, k, env), Discounts(k), lo, hi)
  {
    if k > 0 {
      DiscountedBetween(path, k - 1, lo, hi, env);
      WeighBetween(DiscountedMeans(path, k - 1, env), Discounts(k - 1), MeanValue(path[k], env), Discount(k - 1), lo,
        hi);
    }
  }

  lemma WeighBetween(total: real, norm: real, x: real, w: real, lo: real, hi: real)
    requires Between(total, norm, lo, hi) && lo <= x <= hi && w > 0.0
    ensures Between(Weigh(total, x, w), norm + w, lo, hi)
  {
    assert lo * w <= x * w <= hi * w;
  }

  lemma DivideBounds(total: real, norm: real, lo: real, hi: real)
    requires norm > 0.0 && Between(total, norm, lo, hi)
    ensures lo <= total / norm <= hi
  {
    var q := total / norm;
    assert q * norm == total;
    assert q < lo ==> q * norm < lo * norm;
    assert q > hi ==> q * norm > hi * norm;
  }
}
