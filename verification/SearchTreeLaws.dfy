/**
  The tree search, spelled out: where a simulation goes and what it leaves alone, what a leaf
  grows, what a rollout and a path are worth, and which way the paths turn.
*/
module SearchTreeLaws {
  import opened Prelude
  import opened Policy
  import opened SearchTree

  // ------------------------------------------------------------------ one simulation

  /**
    `a` scores no more than `b` as children of a node visited `visits` times; scores add the mean and
    the exploration bonus.
  */
  predicate ScoresAtMost(a: Node, b: Node, visits: nat, env: Settings)
  {
    var mean := (c: Node) => if c.visits == 0 then env.value(c.state) else c.valueSum / c.visits as real;
    var parent := if visits == 0 then 1 else visits;
    mean(a) + env.bonus(a.prior, parent, a.visits) <= mean(b) + env.bonus(b.prior, parent, b.visits)
  }

  /**
    An expanded node above the depth limit passes its simulation on to exactly one child, the last
    of those with the greatest score; that child gains the visit and the value, and its siblings
    stay as they are.
  */
  lemma DescendsIntoBest(n: Node, sim: nat, initial: CognitiveState, env: Settings) returns (i: nat)
    requires Conserved(n, initial, env) && Lawful(env) && n.depth < env.maxDepth && n.children != []
    ensures i < |n.children|
    ensures var (t, v) := Simulate(n, sim, env);
            && |t.children| == |n.children| && (forall j :: 0 <= j < |n.children| && j != i ==>
              t.children[j] == n.children[j])
            && t.children[i].visits == n.children[i].visits + 1 && t.children[i].valueSum == n.children[i].valueSum + v
            && t.visits == n.visits + 1 && t.valueSum == n.valueSum + v
    ensures forall j :: 0 <= j < |n.children| ==> ScoresAtMost(n.children[j], n.children[i], n.visits, env)
    ensures forall j :: i < j < |n.children| ==> !ScoresAtMost(n.children[i], n.children[j], n.visits, env)
  {
    i := SelectChild(n, env);
    SimulateConserves(n.children[i], sim, initial, env);
    forall j | 0 <= j < |n.children|
      ensures ScoresAtMost(n.children[j], n.children[i], n.visits, env)
      ensures j > i ==> !ScoresAtMost(n.children[i], n.children[j], n.visits, env)
    {
      SelectsTheBest(n, j, env);
    }
  }

  /** A leaf above the limit grows a child for each of the first actions offered, and is worth a rollout from itself. */
  lemma LeafGrows(n: Node, sim: nat, env: Settings)
    requires n.depth < env.maxDepth && n.children == []
    ensures var (t, v) := Simulate(n, sim, env);
            var offered := env.actions(n.state, n.depth, (sim, 0));
            && |t.children| == (if |offered| <= env.branchingFactor then |offered| else env.branchingFactor)
            && (forall j :: 0 <= j < |t.children| ==>
                  t.children[j] == Node(env.predict(n.state, offered[j]), offered[j].prior, [], n.depth + 1, 0, 0.0))
            && v == Rollout(n.state, sim, env) && t.visits == n.visits + 1 && t.valueSum == n.valueSum + v
            && t.state == n.state && t.prior == n.prior && t.depth == n.depth
  {
  }

  /** A node at the limit grows nothing, and is worth its own value. */
  lemma LimitGrowsNothing(n: Node, sim: nat, env: Settings)
    requires n.depth >= env.maxDepth
    ensures var v := env.value(n.state);
            Simulate(n, sim, env) == (n.(visits := n.visits + 1, valueSum := n.valueSum + v), v)
  {
  }

  // ------------------------------------------------------------------ rollouts

  function Power(b: real, k: nat): real { if k == 0 then 1.0 else b * Power(b, k - 1) }

  /** `next` follows from `s` by the last of the likeliest actions offered at step `d`. */
  ghost predicate FollowsBest(s: CognitiveState, next: CognitiveState, d: nat, sim: nat, env: Settings)
  {
    var offered := env.actions(s, d, (sim, d + 1));
    exists i :: 0 <= i < |offered| && next == env.predict(s, offered[i])
                && (forall j :: 0 <= j < |offered| ==> offered[j].prior <= offered[i].prior)
                && (forall j :: i < j < |offered| ==> offered[j].prior < offered[i].prior)
  }

  /** The states of a rollout, which ends at its depth or where nothing is offered. */
  ghost predicate Trajectory(xs: seq<CognitiveState>, d: nat, sim: nat, env: Settings)
    decreases |xs|
  {
    && xs != []
    && if |xs| == 1 then d == env.rolloutDepth || (d < env.rolloutDepth && env.actions(xs[0], d, (sim, d + 1)) == [])
       else d < env.rolloutDepth && FollowsBest(xs[0], xs[1], d, sim, env) && Trajectory(xs[1..], d + 1, sim, env)
  }

  /** The values of the states after the first, each weighing 0.72 of the one before. */
  function Below(xs: seq<CognitiveState>, env: Settings): real
    requires xs != []
    decreases |xs|
  {
    if |xs| == 1 then 0.0 else 0.72 * (env.value(xs[1]) + Below(xs[1..], env))
  }

  /** The weights of so many states after the first. */
  function Weights(n: nat): (w: real)
    ensures w >= 0.0
  {
    if n == 0 then 0.0 else 0.72 * (1.0 + Weights(n - 1))
  }

  /** `total` is what there is so far, and `weight` times the rest. */
  predicate Splits(total: real, sofar: real, weight: real, rest: real) { total == sofar + weight * rest }

  lemma SplitsEarlier(total: real, sofar: real, weight: real, v: real, rest: real)
    requires Splits(total, sofar + v * (weight * 0.72), weight * 0.72, rest)
    ensures Splits(total, sofar, weight, 0.72 * (v + rest))
  {
  }

  /** The states a rollout passes. */
  function Passed(s: CognitiveState, d: nat, sim: nat, env: Settings): (xs: seq<CognitiveState>)
    requires d <= env.rolloutDepth
    ensures xs != [] && xs[0] == s
    decreases env.rolloutDepth - d
  {
    if d == env.rolloutDepth || env.actions(s, d, (sim, d + 1)) == [] then [s]
    else [s] + Passed(Follow(s, d, sim, env), d + 1, sim, env)
  }

  lemma {:induction false} PassedIs(s: CognitiveState, d: nat, sim: nat, env: Settings)
    requires d <= env.rolloutDepth
    ensures Trajectory(Passed(s, d, sim, env), d, sim, env)
    decreases env.rolloutDepth - d
  {
    if d < env.rolloutDepth && env.actions(s, d, (sim, d + 1)) != [] {
      var rest := Passed(Follow(s, d, sim, env), d + 1, sim, env);
      Followed(s, d, sim, env);
      PassedIs(Follow(s, d, sim, env), d + 1, sim, env);
      assert ([s] + rest)[1..] == rest;
    }
  }

  lemma {:induction false} RolloutFromIs(s: CognitiveState, total: real, weight: real, norm: real, d: nat, sim: nat,
    env: Settings) returns (sum: real, weights: real)
    requires d <= env.rolloutDepth
    ensures var xs := Passed(s, d, sim, env);
            Splits(sum, total, weight, Below(xs, env)) && Splits(weights, norm, weight, Weights(|xs| - 1))
    ensures RolloutFrom(s, total, weight, norm, d, sim, env) == WeightedMean(sum, weights)
    decreases env.rolloutDepth - d
  {
    if d == env.rolloutDepth || env.actions(s, d, (sim, d + 1)) == [] {
      sum, weights := total, norm;
    } else {
      var next, w := Follow(s, d, sim, env), weight * 0.72;
      RolloutGoesOn(s, total, weight, norm, d, sim, env);
      sum, weights := RolloutFromIs(next, Weigh(total, env.value(next), w), w, norm + w, d + 1, sim, env);
      SplitsAtFirst(s, Passed(next, d + 1, sim, env), sum, weights, total, weight, norm, env);
    }
  }

  lemma RolloutGoesOn(s: CognitiveState, total: real, weight: real, norm: real, d: nat, sim: nat, env: Settings)
    requires d < env.rolloutDepth && env.actions(s, d, (sim, d + 1)) != []
    ensures var next, w := Follow(s, d, sim, env), weight * 0.72;
            RolloutFrom(s, total, weight, norm, d, sim, env)
            == RolloutFrom(next, Weigh(total, env.value(next), w), w, norm + w, d + 1, sim, env)
  {
  }

  lemma SplitsAtFirst(s: CognitiveState, rest: seq<CognitiveState>, sum: real, weights: real, total: real, weight: real,
    norm: real, env: Settings)
    requires rest != []
    requires Splits(sum, Weigh(total, env.value(rest[0]), weight * 0.72), weight * 0.72, Below(rest, env))
    requires Splits(weights, norm + weight * 0.72, weight * 0.72, Weights(|rest| - 1))
    ensures Splits(sum, total, weight, Below([s] + rest, env))
    ensures Splits(weights, norm, weight, Weights(|[s] + rest| - 1))
  {
    assert ([s] + rest)[1..] == rest;
    SplitsEarlier(sum, total, weight, env.value(rest[0]), Below(rest, env));
    SplitsEarlier(weights, norm, weight, 1.0, Weights(|rest| - 1));
  }

  lemma Followed(s: CognitiveState, d: nat, sim: nat, env: Settings)
    requires env.actions(s, d, (sim, d + 1)) != []
    ensures FollowsBest(s, Follow(s, d, sim, env), d, sim, env)
  {
    var offered := env.actions(s, d, (sim, d + 1));
    assert forall j :: 0 <= j < |offered| ==> Priors(offered)[j] == offered[j].prior;
  }

  /**
    A rollout is the mean of the values along its states, the first weighing one and each later one
    0.72 of the one before.
  */
  lemma RolloutIsMean(s: CognitiveState, sim: nat, env: Settings) returns (xs: seq<CognitiveState>)
    ensures Trajectory(xs, 0, sim, env) && xs[0] == s
    ensures Rollout(s, sim, env) == Clamp((env.value(s) + Below(xs, env)) / (1.0 + Weights(|xs| - 1)))
    ensures 0.28 * (1.0 + Weights(|xs| - 1)) == 1.0 - Power(0.72, |xs|)
  {
    xs := Passed(s, 0, sim, env);
    PassedIs(s, 0, sim, env);
    var sum, weights := RolloutFromIs(s, env.value(s), 1.0, 1.0, 0, sim, env);
    WeightsAre(|xs| - 1);
  }

  lemma {:induction false} WeightsAre(n: nat)
    ensures 0.28 * (1.0 + Weights(n)) == 1.0 - Power(0.72, n + 1)
  {
    if n > 0 { WeightsAre(n - 1); }
    assert Power(0.72, n + 1) == 0.72 * Power(0.72, n) && Power(0.72, 0) == 1.0;
  }

  // ------------------------------------------------------------------ paths

  lemma {:induction false} DiscountIs(k: nat)
    ensures Discount(k) == Power(0.85, k)
  {
    if k > 0 { DiscountIs(k - 1); }
  }

  lemma {:induction false} DiscountsAre(k: nat)
    ensures 0.15 * Discounts(k) == 1.0 - Power(0.85, k)
  {
    if k > 0 {
      DiscountsAre(k - 1);
      DiscountIs(k - 1);
    }
  }

  /** The means below the root, each step weighing 0.85 of the one before. */
  function Along(path: seq<Node>, i: nat, env: Settings): real
    requires i <= |path|
    decreases |path| - i
  {
    if i == |path| then 0.0
    else (if path[i].visits == 0 then env.value(path[i].state) else path[i].valueSum / path[i].visits as real)
         + 0.85 * Along(path, i + 1, env)
  }

  lemma {:induction false} AlongIs(path: seq<Node>, k: nat, env: Settings)
    requires k < |path|
    ensures Splits(Along(path, 1, env), DiscountedMeans(path, k, env), Discount(k), Along(path, k + 1, env))
    decreases k
  {
    if k > 0 {
      AlongIs(path, k - 1, env);
      SplitsLater(Along(path, 1, env), DiscountedMeans(path, k - 1, env), Discount(k - 1), MeanValue(path[k], env),
                  Along(path, k + 1, env));
    }
  }

  lemma SplitsLater(total: real, sofar: real, weight: real, m: real, rest: real)
    requires Splits(total, sofar, weight, m + 0.85 * rest)
    ensures Splits(total, Weigh(sofar, m, weight), weight * 0.85, rest)
  {
  }

  /** What a path of at least one step is worth. */
  lemma PathValueIs(path: seq<Node>, env: Settings)
    requires |path| > 1
    ensures var k := |path| - 1;
            && DiscountedMeans(path, k, env) == Along(path, 1, env)
            && Discounts(k) == (1.0 - Power(0.85, k)) / 0.15
  {
    AlongIs(path, |path| - 1, env);
    DiscountsAre(|path| - 1);
  }

  /** `a` ranks no higher than `b` on a path: by mean, then a little for visits and depth. */
  predicate RanksAtMost(a: Node, b: Node, env: Settings)
  {
    var rank := (c: Node) => (if c.visits == 0 then env.value(c.state) else c.valueSum / c.visits as real)
                             + c.visits as real / 1000.0 + c.depth as real / 2000.0;
    rank(a) <= rank(b)
  }

  /**
    The best path turns to the last of the children that rank highest, the worst to the first of those
    that rank lowest.
  */
  lemma PathsTurn(children: seq<Node>, env: Settings) returns (best: nat, worst: nat)
    requires children != []
    ensures best < |children| && worst < |children|
    ensures Best(env)(children) == Some(best) && Worst(env)(children) == Some(worst)
    ensures forall j :: 0 <= j < |children| ==> RanksAtMost(children[j], children[best], env)
    ensures forall j :: best < j < |children| ==> !RanksAtMost(children[best], children[j], env)
    ensures forall j :: 0 <= j < |children| ==> RanksAtMost(children[worst], children[j], env)
    ensures forall j :: 0 <= j < worst ==> !RanksAtMost(children[j], children[worst], env)
  {
    best, worst := ArgMax(PathScores(children, env)), ArgMin(PathScores(children, env));
    forall i, j | 0 <= i < |children| && 0 <= j < |children|
      ensures RanksAtMost(children[i], children[j], env)
              <==> PathScores(children, env)[i] <= PathScores(children, env)[j]
    {
      Thousandths(children[i].visits as real, children[i].depth as real);
      Thousandths(children[j].visits as real, children[j].depth as real);
    }
  }

  lemma Thousandths(v: real, d: real)
    ensures v * 0.001 == v / 1000.0 && d * 0.0005 == d / 2000.0
  {
  }
}
