/**
  Policy and value of the cognitive tree search: candidate actions and their priors, the
  projection of a state by an action, and the health of a state; `f32` is read as `real`.
*/
module Policy {
  import opened Prelude

  // ------------------------------------------------------------------ policy and value

  datatype CognitiveState = CognitiveState(
    graphDensity: real,
    recentErrors: seq<string>,
    activeHypotheses: seq<string>,
    avgConfidence: real)

  datatype ActionCandidate = ActionCandidate(description: string, confidence: real, prior: real, effects: seq<string>)

  const F32_EPSILON: real := 0.00000011920929

  function Min(a: real, b: real): real { if a <= b then a else b }
  function Max(a: real, b: real): real { if a >= b then a else b }

  function Clamp(x: real): (r: real)
    ensures 0.0 <= r <= 1.0 && (0.0 <= x <= 1.0 ==> r == x)
  {
    if x < 0.0 then 0.0 else if x > 1.0 then 1.0 else x
  }

  function NewAction(description: string, confidence: real, prior: real, effects: seq<string>): ActionCandidate
  {
    ActionCandidate(description, Clamp(confidence), Max(prior, 0.0), effects)
  }

  /** `CognitiveValue::compute(..).composite`. */
  function Composite(s: CognitiveState): (r: real)
    ensures 0.0 <= r <= 1.0
  {
    var consistency := Clamp(s.graphDensity);
    var confidence := Clamp(s.avgConfidence);
    var coverage :=
      if s.activeHypotheses == [] then 1.0
      else Clamp(0.55 + s.graphDensity * 0.25 - |s.activeHypotheses| as real * 0.02);
    var penalty := Min(|s.recentErrors| as real * 0.03, 0.25);
    Clamp(consistency * 0.4 + confidence * 0.35 + coverage * 0.25 - penalty)
  }

  /** `PolicyModule::predict`: only the graph density of a projected state may move. */
  function Predict(s: CognitiveState, a: ActionCandidate): (r: CognitiveState)
  {
    if DENSER in a.effects || COHERENT in a.effects then
      s.(graphDensity := Clamp(s.graphDensity + 0.02 * a.confidence))
    else s
  }

  function SumPriors(actions: seq<ActionCandidate>): real
  {
    if actions == [] then 0.0 else SumPriors(actions[..|actions| - 1]) + Max(actions[|actions| - 1].prior, 0.0)
  }

  /** The rescaling of `prioritize`, before its sort. */
  function Normalize(actions: seq<ActionCandidate>): (r: seq<ActionCandidate>)
  {
    var total := SumPriors(actions);
    if total > F32_EPSILON then
      seq(|actions|, i requires 0 <= i < |actions| => actions[i].(prior := Clamp(actions[i].prior / total)))
    else
      seq(|actions|, i requires 0 <= i < |actions| => actions[i].(prior := 1.0 / |actions| as real))
  }

  function InsertByPrior(a: ActionCandidate, sorted: seq<ActionCandidate>): (r: seq<ActionCandidate>)
    ensures |r| == |sorted| + 1
    ensures forall x :: x in r <==> x == a || x in sorted
  {
    if sorted == [] || a.prior > sorted[0].prior then [a] + sorted
    else [sorted[0]] + InsertByPrior(a, sorted[1..])
  }

  /** A stable sort by decreasing prior. */
  function SortByPrior(actions: seq<ActionCandidate>): (r: seq<ActionCandidate>)
    ensures |r| == |actions|
  {
    if actions == [] then [] else InsertByPrior(actions[|actions| - 1], SortByPrior(actions[..|actions| - 1]))
  }

  function Prioritize(actions: seq<ActionCandidate>): (r: seq<ActionCandidate>)
  {
    SortByPrior(Normalize(actions))
  }

  const FIX := "analyze and fix recent errors"
  const VALIDATE := "validate active hypotheses"
  const LINK := "link related knowledge nodes"
  const CONSOLIDATE := "consolidate high-confidence knowledge"
  const DENSER := "improve graph density"
  const COHERENT := "improve coherence"

  function FixErrors(n: nat): ActionCandidate
  {
    NewAction(FIX, 0.72, 0.42 + Min(n as real * 0.04, 0.18), ["reduce errors", "increase confidence"])
  }

  function ValidateHypotheses(n: nat): ActionCandidate
  {
    NewAction(VALIDATE, 0.64, 0.34 + Min(n as real * 0.03, 0.16), ["confirm or falsify", "increase evidence"])
  }

  function LinkNodes(density: real): ActionCandidate
  {
    NewAction(LINK, 0.58, 0.28 + Max(0.55 - density, 0.0), [DENSER])
  }

  function ConsolidateKnowledge(confidence: real): ActionCandidate
  {
    NewAction(CONSOLIDATE, 0.52, 0.25 + confidence * 0.2, [COHERENT])
  }

  /** `PolicyModule::generate`: up to three situational actions and always the last one. */
  function Generate(s: CognitiveState): (r: seq<ActionCandidate>)
    ensures r != []
  {
    var fix := if s.recentErrors == [] then [] else [FixErrors(|s.recentErrors|)];
    var validate := if s.activeHypotheses == [] then [] else [ValidateHypotheses(|s.activeHypotheses|)];
    var link := if s.graphDensity < 0.55 then [LinkNodes(s.graphDensity)] else [];
    var consolidate := [ConsolidateKnowledge(s.avgConfidence)];
    var all := fix + validate + link + consolidate;
    Prioritize(all)
  }

  /** `expand_actions`: the model's suggestions if there are any, the built-in ones otherwise. */
  function ExpandActions(s: CognitiveState, suggested: Option<seq<ActionCandidate>>): (r: seq<ActionCandidate>)
    ensures r != []
  {
    if suggested.Some? && suggested.value != [] then Prioritize(suggested.value) else Generate(s)
  }

  /** `max_by` returns the last of the greatest. */
  function ArgMax(scores: seq<real>): (i: nat)
    requires scores != []
    ensures i < |scores|
    ensures forall j :: 0 <= j < |scores| ==> scores[j] <= scores[i]
    ensures forall j :: i < j < |scores| ==> scores[j] < scores[i]
  {
    var n := |scores| - 1;
    if n == 0 then 0
    else
      var best := ArgMax(scores[..n]);
      if scores[n] >= scores[best] then n else best
  }

  /** `min_by` returns the first of the least. */
  function ArgMin(scores: seq<real>): (i: nat)
    requires scores != []
    ensures i < |scores|
    ensures forall j :: 0 <= j < |scores| ==> scores[i] <= scores[j]
    ensures forall j :: 0 <= j < i ==> scores[i] < scores[j]
  {
    var n := |scores| - 1;
    if n == 0 then 0
    else
      var least := ArgMin(scores[..n]);
      if scores[n] < scores[least] then n else least
  }

  // ------------------------------------------------------------------ priors

  lemma QuotientInUnit(a: real, b: real)
    requires 0.0 <= a <= b && b > 0.0
    ensures 0.0 <= a / b <= 1.0
  {
  }

  /** Rescaled priors are a distribution. */
  lemma NormalizeSumsToOne(actions: seq<ActionCandidate>)
    requires actions != [] && forall i :: 0 <= i < |actions| ==> actions[i].prior >= 0.0
    ensures SumPriors(Normalize(actions)) == 1.0
    ensures forall i :: 0 <= i < |actions| ==> 0.0 <= Normalize(actions)[i].prior <= 1.0
  {
    if SumPriors(actions) > F32_EPSILON {
      ScaledSumsToOne(actions, SumPriors(actions), Normalize(actions));
    } else {
      UniformSumsToOne(Normalize(actions), |actions| as real);
    }
  }

  lemma ScaledSumsToOne(actions: seq<ActionCandidate>, total: real, r: seq<ActionCandidate>)
    requires forall i :: 0 <= i < |actions| ==> actions[i].prior >= 0.0
    requires total == SumPriors(actions) && total > 0.0 && |r| == |actions|
    requires forall i :: 0 <= i < |actions| ==> r[i].prior == Clamp(actions[i].prior / total)
    ensures SumPriors(r) == 1.0 && forall i :: 0 <= i < |r| ==> 0.0 <= r[i].prior <= 1.0
  {
    forall i | 0 <= i < |actions| ensures r[i].prior == actions[i].prior / total {
      PriorBelowTotal(actions, i);
      QuotientInUnit(actions[i].prior, total);
    }
    ScaledSum(actions, r, total);
    Cancel(total);
  }

  lemma UniformSumsToOne(r: seq<ActionCandidate>, n: real)
    requires n == |r| as real && n >= 1.0
    requires forall i :: 0 <= i < |r| ==> r[i].prior == 1.0 / n
    ensures SumPriors(r) == 1.0 && forall i :: 0 <= i < |r| ==> 0.0 <= r[i].prior <= 1.0
  {
    QuotientInUnit(1.0, n);
    UniformSum(r, 1.0 / n);
  }

  lemma Cancel(a: real)
    requires a > 0.0
    ensures a / a == 1.0
  {
  }

  lemma {:induction false} PriorBelowTotal(actions: seq<ActionCandidate>, i: nat)
    requires i < |actions| && forall j :: 0 <= j < |actions| ==> actions[j].prior >= 0.0
    ensures 0.0 <= actions[i].prior <= SumPriors(actions)
    decreases |actions|
  {
    var n := |actions| - 1;
    if i < n { PriorBelowTotal(actions[..n], i); }
    else if n > 0 { PriorBelowTotal(actions[..n], 0); }
  }

  lemma {:induction false} ScaledSum(actions: seq<ActionCandidate>, r: seq<ActionCandidate>, total: real)
    requires |r| == |actions| && total > 0.0
    requires forall i :: 0 <= i < |actions| ==> actions[i].prior >= 0.0 && r[i].prior == actions[i].prior / total
    ensures SumPriors(r) == SumPriors(actions) / total
    decreases |actions|
  {
    if actions != [] {
      var n := |actions| - 1;
      ScaledSum(actions[..n], r[..n], total);
      QuotientSum(SumPriors(actions[..n]), actions[n].prior, total);
    }
  }

  lemma QuotientSum(a: real, b: real, c: real)
    requires c > 0.0 && b >= 0.0
    ensures a / c + b / c == (a + b) / c && b / c >= 0.0
  {
  }

  lemma {:induction false} UniformSum(r: seq<ActionCandidate>, p: real)
    requires p >= 0.0 && forall i :: 0 <= i < |r| ==> r[i].prior == p
    ensures SumPriors(r) == |r| as real * p
    decreases |r|
  {
    if r != [] { UniformSum(r[..|r| - 1], p); }
  }

  lemma {:induction false} InsertKeepsAll(a: ActionCandidate, s: seq<ActionCandidate>)
    ensures multiset(InsertByPrior(a, s)) == multiset(s) + multiset{a}
    decreases |s|
  {
    if s != [] && a.prior <= s[0].prior {
      InsertKeepsAll(a, s[1..]);
      assert s == [s[0]] + s[1..];
    }
  }

  lemma {:induction false} InsertKeepsSorted(a: ActionCandidate, s: seq<ActionCandidate>)
    requires Descending(s)
    ensures Descending(InsertByPrior(a, s))
    decreases |s|
  {
    if s != [] && a.prior <= s[0].prior {
      var tail := InsertByPrior(a, s[1..]);
      InsertKeepsSorted(a, s[1..]);
      forall j | 0 <= j < |tail| ensures s[0].prior >= tail[j].prior {
        assert tail[j] in tail;
        if tail[j] != a {
          var k :| 0 <= k < |s[1..]| && s[1..][k] == tail[j];
          assert s[k + 1] == tail[j];
        }
      }
    }
  }

  ghost predicate Descending(s: seq<ActionCandidate>)
  {
    forall i, j :: 0 <= i < j < |s| ==> s[i].prior >= s[j].prior
  }

  /** `prioritize` puts the likeliest first. */
  lemma {:induction false} SortIsSorted(actions: seq<ActionCandidate>)
    ensures Descending(SortByPrior(actions))
    decreases |actions|
  {
    if actions != [] {
      SortIsSorted(actions[..|actions| - 1]);
      InsertKeepsSorted(actions[|actions| - 1], SortByPrior(actions[..|actions| - 1]));
    }
  }

  /** And it keeps every action. */
  lemma {:induction false} SortKeepsAll(actions: seq<ActionCandidate>)
    ensures multiset(SortByPrior(actions)) == multiset(actions)
    decreases |actions|
  {
    if actions != [] {
      var n := |actions| - 1;
      SortKeepsAll(actions[..n]);
      InsertKeepsAll(actions[n], SortByPrior(actions[..n]));
      assert actions == actions[..n] + [actions[n]];
    }
  }
}
