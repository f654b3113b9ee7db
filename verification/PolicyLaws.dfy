/**
  Policy and value, spelled out: what is offered when and how likely, what a projection moves,
  and what a state is worth.
*/
module PolicyLaws {
  import opened Prelude
  import opened Policy

  // ------------------------------------------------------------------ offers

  ghost predicate Offers(actions: seq<ActionCandidate>, description: string)
  {
    exists i :: 0 <= i < |actions| && actions[i].description == description
  }

  /** `b` has the action `x`, whatever its prior. */
  ghost predicate Has(b: seq<ActionCandidate>, x: ActionCandidate)
  {
    exists j :: 0 <= j < |b| && b[j] == x.(prior := b[j].prior)
  }

  /** Prioritizing reorders; of an action it changes the prior alone. */
  ghost predicate Reordered(a: seq<ActionCandidate>, b: seq<ActionCandidate>)
  {
    && |a| == |b|
    && (forall i {:trigger Has(b, a[i])} :: 0 <= i < |a| ==> Has(b, a[i]))
    && (forall j {:trigger Has(a, b[j])} :: 0 <= j < |b| ==> Has(a, b[j]))
  }

  lemma PrioritizeReorders(actions: seq<ActionCandidate>)
    ensures Reordered(actions, Prioritize(actions)) && Descending(Prioritize(actions))
  {
    var scaled := Normalize(actions);
    SortKeepsAll(scaled);
    SortIsSorted(scaled);
    var sorted := Prioritize(actions);
    forall i | 0 <= i < |actions| ensures Has(sorted, actions[i]) {
      assert scaled[i] in multiset(scaled) && scaled[i] in sorted;
    }
    forall j | 0 <= j < |sorted| ensures Has(actions, sorted[j]) {
      assert sorted[j] in multiset(sorted);
      var i :| 0 <= i < |scaled| && scaled[i] == sorted[j];
    }
  }

  /** The actions of one prior, in order. */
  function OfPrior(actions: seq<ActionCandidate>, p: real): seq<ActionCandidate>
  {
    if actions == [] then []
    else (if actions[0].prior == p then [actions[0]] else []) + OfPrior(actions[1..], p)
  }

  lemma {:induction false} NoneOfPrior(s: seq<ActionCandidate>, p: real)
    requires forall i :: 0 <= i < |s| ==> s[i].prior != p
    ensures OfPrior(s, p) == []
    decreases |s|
  {
    if s != [] { NoneOfPrior(s[1..], p); }
  }

  lemma {:induction false} InsertIsStable(a: ActionCandidate, s: seq<ActionCandidate>, p: real)
    requires Descending(s)
    ensures OfPrior(InsertByPrior(a, s), p) == OfPrior(s, p) + if a.prior == p then [a] else []
    decreases |s|
  {
    if s == [] || a.prior > s[0].prior {
      if a.prior == p { NoneOfPrior(s, p); }
    } else {
      InsertIsStable(a, s[1..], p);
    }
  }

  lemma {:induction false} OfPriorLast(front: seq<ActionCandidate>, a: ActionCandidate, p: real)
    ensures OfPrior(front + [a], p) == OfPrior(front, p) + if a.prior == p then [a] else []
    decreases |front|
  {
    if front != [] {
      assert (front + [a])[1..] == front[1..] + [a];
      OfPriorLast(front[1..], a, p);
    }
  }

  /** Actions of one prior stay in order. */
  lemma {:induction false} SortIsStable(actions: seq<ActionCandidate>, p: real)
    ensures OfPrior(SortByPrior(actions), p) == OfPrior(actions, p)
    decreases |actions|
  {
    if actions != [] {
      var n := |actions| - 1;
      SortIsStable(actions[..n], p);
      SortIsSorted(actions[..n]);
      InsertIsStable(actions[n], SortByPrior(actions[..n]), p);
      OfPriorLast(actions[..n], actions[n], p);
      assert actions == actions[..n] + [actions[n]];
    }
  }

  /** `p` is the share that `a` has in `total`. */
  predicate IsShare(p: real, a: real, total: real) { p * total == a }

  /** Rescaling keeps the proportions. */
  lemma NormalizeKeepsShares(actions: seq<ActionCandidate>, i: nat)
    requires i < |actions| && forall j :: 0 <= j < |actions| ==> actions[j].prior >= 0.0
    requires SumPriors(actions) > F32_EPSILON
    ensures |Normalize(actions)| == |actions|
    ensures IsShare(Normalize(actions)[i].prior, actions[i].prior, SumPriors(actions))
  {
    Normalized(actions, i);
    PriorBelowTotal(actions, i);
    Share(actions[i].prior, SumPriors(actions));
  }

  /** A negligible total makes all actions equally likely. */
  lemma NormalizeIsUniform(actions: seq<ActionCandidate>, i: nat)
    requires i < |actions| && SumPriors(actions) <= F32_EPSILON
    ensures |Normalize(actions)| == |actions| && IsShare(Normalize(actions)[i].prior, 1.0, |actions| as real)
  {
    Normalized(actions, i);
    Undone(1.0, |actions| as real);
  }

  lemma Normalized(actions: seq<ActionCandidate>, i: nat)
    requires i < |actions|
    ensures |Normalize(actions)| == |actions|
    ensures Normalize(actions)[i].prior == if SumPriors(actions) > F32_EPSILON
            then Clamp(actions[i].prior / SumPriors(actions))
                                           else 1.0 / |actions| as real
  {
  }

  lemma Share(a: real, b: real)
    requires 0.0 <= a <= b && b > 0.0
    ensures IsShare(Clamp(a / b), a, b)
  {
    QuotientInUnit(a, b);
    Undone(a, b);
  }

  lemma Undone(a: real, b: real)
    requires b > 0.0
    ensures IsShare(a / b, a, b)
  {
  }

  /** How likely each action is before rescaling, and how confident. */
  lemma FixErrorsIs(n: nat)
    ensures var a := FixErrors(n);
            && a.description == FIX && a.confidence == 0.72
            && a.prior == if n >= 5 then 0.6 else 0.42 + n as real / 25.0
  {
    assert n as real * 0.04 == n as real / 25.0;
  }

  lemma ValidateHypothesesIs(n: nat)
    ensures var a := ValidateHypotheses(n);
            && a.description == VALIDATE && a.confidence == 0.64
            && a.prior == if n >= 6 then 0.5 else 0.34 + 3.0 * n as real / 100.0
  {
    assert n as real * 0.03 == 3.0 * n as real / 100.0;
  }

  lemma LinkNodesIs(density: real)
    requires density < 0.55
    ensures var a := LinkNodes(density);
            a.description == LINK && a.confidence == 0.58 && a.prior == 0.83 - density && a.effects == [DENSER]
  {
  }

  lemma ConsolidateKnowledgeIs(confidence: real)
    ensures var a := ConsolidateKnowledge(confidence);
            && a.description == CONSOLIDATE && a.confidence == 0.52 && a.effects == [COHERENT]
            && a.prior == if confidence <= -1.25 then 0.0 else 0.25 + confidence / 5.0
  {
    assert confidence * 0.2 == confidence / 5.0;
  }

  /**
    What a state offers before its priors are rescaled: errors, hypotheses and a sparse graph call for
    one action each.
  */
  function Offered(s: CognitiveState): seq<ActionCandidate>
  {
    (if s.recentErrors == [] then [] else [FixErrors(|s.recentErrors|)])
    + (if s.activeHypotheses == [] then [] else [ValidateHypotheses(|s.activeHypotheses|)])
    + (if s.graphDensity >= 0.55 then [] else [LinkNodes(s.graphDensity)])
    + [ConsolidateKnowledge(s.avgConfidence)]
  }

  /**
    A state offers to fix errors iff it has some, to validate iff it has hypotheses, to link iff it is
    sparse, and always to consolidate.
  */
  lemma GenerateOffersIff(s: CognitiveState)
    ensures Offers(Generate(s), FIX) <==> s.recentErrors != []
    ensures Offers(Generate(s), VALIDATE) <==> s.activeHypotheses != []
    ensures Offers(Generate(s), LINK) <==> s.graphDensity < 0.55
    ensures Offers(Generate(s), CONSOLIDATE)
  {
    assert Generate(s) == Prioritize(Offered(s));
    PrioritizeReorders(Offered(s));
    SameOffers(Offered(s), Generate(s), FIX);
    SameOffers(Offered(s), Generate(s), VALIDATE);
    SameOffers(Offered(s), Generate(s), LINK);
    SameOffers(Offered(s), Generate(s), CONSOLIDATE);
    assert Offered(s)[|Offered(s)| - 1].description == CONSOLIDATE;
    OfferedAre(s);
  }

  lemma OfferedAre(s: CognitiveState)
    ensures Offers(Offered(s), FIX) <==> s.recentErrors != []
    ensures Offers(Offered(s), VALIDATE) <==> s.activeHypotheses != []
    ensures Offers(Offered(s), LINK) <==> s.graphDensity < 0.55
  {
    var e, h, l := |s.recentErrors| > 0, |s.activeHypotheses| > 0, s.graphDensity < 0.55;
    var o := Offered(s);
    FixErrorsIs(|s.recentErrors|);
    ValidateHypothesesIs(|s.activeHypotheses|);
    if l { LinkNodesIs(s.graphDensity); }
    ConsolidateKnowledgeIs(s.avgConfidence);
    assert FIX[0] != VALIDATE[0] && FIX[0] != LINK[0] && FIX[0] != CONSOLIDATE[0];
    assert VALIDATE[0] != LINK[0] && VALIDATE[0] != CONSOLIDATE[0] && LINK[0] != CONSOLIDATE[0];
    if e { assert o[0].description == FIX; }
    if h { assert o[if e then 1 else 0].description == VALIDATE; }
    if l { assert o[(if e then 1 else 0) + (if h then 1 else 0)].description == LINK; }
  }

  lemma SameOffers(a: seq<ActionCandidate>, b: seq<ActionCandidate>, description: string)
    requires Reordered(a, b)
    ensures Offers(a, description) <==> Offers(b, description)
  {
    if i :| 0 <= i < |a| && a[i].description == description { assert Has(b, a[i]); }
    if j :| 0 <= j < |b| && b[j].description == description { assert Has(a, b[j]); }
  }

  /** A projection changes the density alone, and only for an action that promises density or coherence. */
  lemma PredictMoves(s: CognitiveState, a: ActionCandidate)
    ensures var t := Predict(s, a);
            && t == CognitiveState(t.graphDensity, s.recentErrors, s.activeHypotheses, s.avgConfidence)
            && (DENSER !in a.effects && COHERENT !in a.effects ==> t == s)
            && (DENSER in a.effects || COHERENT in a.effects ==>
                  var d := s.graphDensity + a.confidence / 50.0;
                  t.graphDensity == if d < 0.0 then 0.0 else if d > 1.0 then 1.0 else d)
  {
    assert 0.02 * a.confidence == a.confidence / 50.0;
  }

  // ------------------------------------------------------------------ what a state is worth

  ghost predicate Usual(s: CognitiveState) { 0.0 <= s.graphDensity <= 1.0 && 0.0 <= s.avgConfidence <= 1.0 }

  /** Nothing wrong and nothing open: density and confidence count 0.4 and 0.35 on top of a quarter. */
  lemma UnburdenedValue(s: CognitiveState)
    requires Usual(s) && s.recentErrors == [] && s.activeHypotheses == []
    ensures Composite(s) == 0.4 * s.graphDensity + 0.35 * s.avgConfidence + 0.25
  {
  }

  /** Each error costs 0.03, up to 0.25 in all, as far as there is something to lose. */
  lemma ErrorsCost(s: CognitiveState)
    requires Usual(s)
    ensures var t := s.(recentErrors := []);
            var cost := if |s.recentErrors| >= 9 then 0.25 else 0.03 * |s.recentErrors| as real;
            Composite(s) == if Composite(t) >= cost then Composite(t) - cost else 0.0
  {
  }

  /**
    Open hypotheses leave a coverage of 0.55, a quarter of the density on top and 0.02 off for each;
    it counts a quarter.
  */
  lemma HypothesesCost(s: CognitiveState)
    requires Usual(s) && s.recentErrors == [] && s.activeHypotheses != []
    ensures var coverage := 0.55 + s.graphDensity / 4.0 - |s.activeHypotheses| as real / 50.0;
            var t := s.(activeHypotheses := []);
            Composite(s) == Composite(t) - 0.25 * (1.0 - if coverage < 0.0 then 0.0 else coverage)
  {
    var n := |s.activeHypotheses| as real;
    assert n * 0.02 == n / 50.0 && s.graphDensity * 0.25 == s.graphDensity / 4.0;
  }
}
