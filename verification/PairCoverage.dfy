/**
  The contradiction classifier of the consistency check: a batch answer over the pairs of
  facts is accepted by counting, and then speaks of every pair exactly once.
*/
module PairCoverage {
  import opened Prelude

  datatype Item = Item(left: nat, right: nat, contradiction: bool, confidence: real, rationale: string)

  datatype Violation = Violation(left: nat, right: nat, rationale: string)

  datatype Error = WrongCount | BadConfidence | BadPair | BadRationale

  /** `content` is what validation makes of a rationale, or nothing if it refuses it. */
  datatype Env = Env(content: string -> Option<string>)

  function Expected(n: nat): nat { n * (n - 1) / 2 }

  predicate InRange(item: Item, n: nat) { item.left < item.right < n }

  predicate Confident(item: Item) { 0.0 <= item.confidence <= 1.0 }

  /** The classifications of more than one fact, as far as the check reads them. */
  method Contradictions(n: nat, items: seq<Item>, env: Env) returns (r: Result<seq<Violation>, Error>)
    requires n > 1
    ensures r.Ok? <==> Acceptable(items, n, env)
    ensures r.Ok? ==> r.value == Reported(items, env)
    ensures r == Err(WrongCount) <==> |items| != n * (n - 1) / 2
    ensures r.Ok? <==>
            && |items| == n * (n - 1) / 2
            && (forall i, j :: 0 <= i < j < |items| ==>
                  items[i].left != items[j].left || items[i].right != items[j].right)
            && (forall k :: 0 <= k < |items| ==>
                  && 0.0 <= items[k].confidence <= 1.0 && items[k].left < items[k].right < n
                  && env.content(items[k].rationale).Some?)
    ensures r.Err? && r != Err(WrongCount) ==> exists k :: 0 <= k < |items| && Rejected(items, k, n, env, r.error)
  {
    Spelled(items, n, env);
    if |items| != Expected(n) { return Err(WrongCount); }
    r := Classify(n, items, env);
  }

  /** The loop over as many items as there are pairs. */
  method Classify(n: nat, items: seq<Item>, env: Env) returns (r: Result<seq<Violation>, Error>)
    requires |items| == Expected(n)
    ensures r.Ok? <==> Acceptable(items, n, env)
    ensures r.Ok? ==> r.value == Reported(items, env)
    ensures r.Err? ==> exists k :: 0 <= k < |items| && Rejected(items, k, n, env, r.error)
  {
    var seen: set<(nat, nat)> := {};
    var violations := [];
    for k := 0 to |items|
      invariant violations == Reported(items[..k], env)
      invariant FirstFine(items, k, n, env)
      invariant seen == PairsOf(items[..k])
    {
      var item := items[k];
      assert items[..k + 1][..k] == items[..k];
      var fault := FaultOf(item, seen, n, env);
      if fault.Some? {
        FaultRejects(items, k, n, env);
        return Err(fault.value);
      }
      FineGrows(items, k, n, env);
      seen := seen + {(item.left, item.right)};
      if item.contradiction {
        violations := violations + [Violation(item.left, item.right, env.content(item.rationale).value)];
      }
    }
    assert items[..|items|] == items;
    r := Ok(violations);
  }

  /** What is wrong with one item, the pairs seen so far at hand. */
  function FaultOf(item: Item, seen: set<(nat, nat)>, n: nat, env: Env): Option<Error>
  {
    if !Confident(item) then Some(BadConfidence)
    else if item.left >= item.right || item.right >= n || (item.left, item.right) in seen then Some(BadPair)
    else if env.content(item.rationale).None? then Some(BadRationale)
    else None
  }

  ghost predicate FirstFine(items: seq<Item>, k: nat, n: nat, env: Env)
    requires k <= |items|
  {
    && DistinctPairs(items[..k])
    && forall j :: 0 <= j < k ==> Confident(items[j]) && InRange(items[j], n) && env.content(items[j].rationale).Some?
  }

  lemma FineGrows(items: seq<Item>, k: nat, n: nat, env: Env)
    requires k < |items| && FirstFine(items, k, n, env) && FaultOf(items[k], PairsOf(items[..k]), n, env).None?
    ensures FirstFine(items, k + 1, n, env) && PairsOf(items[..k + 1]) == PairsOf(items[..k]) + {PairAt(items, k)}
  {
    SeenBefore(items, k);
    assert items[..k + 1] == items[..k] + [items[k]];
  }

  lemma FaultRejects(items: seq<Item>, k: nat, n: nat, env: Env)
    requires k < |items| && FirstFine(items, k, n, env) && FaultOf(items[k], PairsOf(items[..k]), n, env).Some?
    ensures !Acceptable(items, n, env)
    ensures Rejected(items, k, n, env, FaultOf(items[k], PairsOf(items[..k]), n, env).value)
  {
    SeenBefore(items, k);
    forall i, j | 0 <= i < j < k ensures items[i].left != items[j].left || items[i].right != items[j].right {
      assert PairAt(items[..k], i) != PairAt(items[..k], j);
    }
    var p := PairAt(items, k);
    if p in PairsOf(items[..k]) {
      var item :| item in items[..k] && (item.left, item.right) == p;
      var j :| 0 <= j < k && items[..k][j] == item;
      assert items[j].left == items[k].left && items[j].right == items[k].right;
    } else {
      assert forall j :: 0 <= j < k ==> items[j] in items[..k];
    }
  }

  /** The first item that is not in order, and the first thing wrong with it. */
  ghost predicate Rejected(items: seq<Item>, k: nat, n: nat, env: Env, e: Error)
    requires k < |items|
  {
    var item := items[k];
    && (forall j :: 0 <= j < k ==>
          0.0 <= items[j].confidence <= 1.0 && items[j].left < items[j].right < n
            && env.content(items[j].rationale).Some?)
    && (forall i, j :: 0 <= i < j < k ==> items[i].left != items[j].left || items[i].right != items[j].right)
    && var odd := item.confidence < 0.0 || item.confidence > 1.0;
       var stray := item.left >= item.right || item.right >= n
                    || exists j :: 0 <= j < k && items[j].left == item.left && items[j].right == item.right;
       match e
       case WrongCount => false
       case BadConfidence => odd
       case BadPair => !odd && stray
       case BadRationale => !odd && !stray && env.content(item.rationale).None?
  }

  lemma Spelled(items: seq<Item>, n: nat, env: Env)
    ensures Acceptable(items, n, env) <==>
            && |items| == n * (n - 1) / 2
            && (forall i, j :: 0 <= i < j < |items| ==>
                  items[i].left != items[j].left || items[i].right != items[j].right)
            && (forall k :: 0 <= k < |items| ==>
                  && 0.0 <= items[k].confidence <= 1.0 && items[k].left < items[k].right < n
                  && env.content(items[k].rationale).Some?)
  {
    forall i, j | 0 <= i < j < |items|
      ensures PairAt(items, i) != PairAt(items, j)
              <==> items[i].left != items[j].left || items[i].right != items[j].right
    {
    }
  }

  lemma SeenBefore(items: seq<Item>, k: nat)
    requires k < |items| && DistinctPairs(items[..k])
    ensures (items[k].left, items[k].right) in PairsOf(items[..k]) ==> !DistinctPairs(items)
    ensures (items[k].left, items[k].right) !in PairsOf(items[..k]) ==> DistinctPairs(items[..k + 1])
  {
    var p := (items[k].left, items[k].right);
    if p in PairsOf(items[..k]) {
      var item :| item in items[..k] && (item.left, item.right) == p;
      var j :| 0 <= j < k && items[..k][j] == item;
      assert PairAt(items, j) == PairAt(items, k);
    } else {
      var more := items[..k + 1];
      forall i, j | 0 <= i < j < |more| ensures PairAt(more, i) != PairAt(more, j) {
        assert items[i] in items[..k];
        if j < k { assert PairAt(items[..k], i) != PairAt(items[..k], j); }
      }
    }
  }

  // ------------------------------------------------------------------ what is accepted

  function PairAt(items: seq<Item>, i: nat): (nat, nat)
    requires i < |items|
  {
    (items[i].left, items[i].right)
  }

  ghost predicate DistinctPairs(items: seq<Item>)
  {
    forall i, j :: 0 <= i < j < |items| ==> PairAt(items, i) != PairAt(items, j)
  }

  function PairsOf(items: seq<Item>): set<(nat, nat)> { set item | item in items :: (item.left, item.right) }

  ghost predicate Acceptable(items: seq<Item>, n: nat, env: Env)
  {
    && |items| == Expected(n) && DistinctPairs(items)
    && forall j :: 0 <= j < |items| ==>
      Confident(items[j]) && InRange(items[j], n) && env.content(items[j].rationale).Some?
  }

  /** The violations, in the order of the items marked as contradictions. */
  function Reported(items: seq<Item>, env: Env): seq<Violation>
  {
    if items == [] then []
    else
      var item := items[|items| - 1];
      Reported(items[..|items| - 1], env) +
      if item.contradiction && env.content(item.rationale).Some? then
        [Violation(item.left, item.right, env.content(item.rationale).value)]
      else []
  }

  // ------------------------------------------------------------------ counting

  function AllPairs(n: nat): set<(nat, nat)> { set i: nat, j: nat | 0 <= i < j < n :: (i, j) }

  function Column(n: nat): set<(nat, nat)> { set i: nat | 0 <= i < n :: (i, n) }

  lemma {:induction false} ColumnSize(n: nat, k: nat)
    requires k <= n
    ensures |set i: nat | 0 <= i < k :: (i, n)| == k
    decreases k
  {
    if k > 0 {
      ColumnSize(n, k - 1);
      assert (set i: nat | 0 <= i < k :: (i, n)) == (set i: nat | 0 <= i < k - 1 :: (i, n)) + {(k - 1, n)};
    }
  }

  lemma {:induction false} AllPairsSize(n: nat)
    ensures |AllPairs(n)| == Expected(n)
  {
    if n > 0 {
      AllPairsSize(n - 1);
      ColumnSize(n - 1, n - 1);
      assert AllPairs(n) == AllPairs(n - 1) + Column(n - 1);
      assert AllPairs(n - 1) !! Column(n - 1);
      assert n * (n - 1) == (n - 1) * (n - 2) + 2 * (n - 1);
    } else {
      assert AllPairs(0) == {};
    }
  }

  lemma {:induction false} DistinctPairsCount(items: seq<Item>)
    requires DistinctPairs(items)
    ensures |PairsOf(items)| == |items|
    decreases |items|
  {
    if items != [] {
      var k := |items| - 1;
      forall i, j | 0 <= i < j < k ensures PairAt(items[..k], i) != PairAt(items[..k], j) {
        assert PairAt(items, i) != PairAt(items, j);
      }
      DistinctPairsCount(items[..k]);
      SeenBefore(items, k);
      assert PairsOf(items) == PairsOf(items[..k]) + {PairAt(items, k)};
    }
  }

  lemma SameSize<T>(a: set<T>, b: set<T>)
    requires a <= b && |a| == |b|
    ensures a == b
  {
    if a != b {
      var x :| x in b && x !in a;
      SubsetCardinality(a, b - {x});
    }
  }

  // ------------------------------------------------------------------ main results

  ghost predicate ClassifiesOnce(items: seq<Item>, i: nat, j: nat)
  {
    exists k :: 0 <= k < |items| && PairAt(items, k) == (i, j) && forall l ::
      0 <= l < |items| && PairAt(items, l) == (i, j) ==> l == k
  }

  /** An accepted answer classifies every unordered pair exactly once. */
  lemma AcceptedCoversEveryPair(items: seq<Item>, n: nat, i: nat, j: nat, env: Env)
    requires Acceptable(items, n, env) && i < j < n
    ensures ClassifiesOnce(items, i, j)
  {
    AllPairsSize(n);
    DistinctPairsCount(items);
    forall p | p in PairsOf(items) ensures p in AllPairs(n) {
      var item :| item in items && (item.left, item.right) == p;
      assert InRange(item, n);
    }
    SameSize(PairsOf(items), AllPairs(n));
    assert (i, j) in PairsOf(items);
    var item :| item in items && (item.left, item.right) == (i, j);
    var k :| 0 <= k < |items| && items[k] == item;
    assert PairAt(items, k) == (i, j);
  }

  /** And only such an answer is accepted: one item for each pair and no others, every field in order. */
  lemma AcceptedIff(items: seq<Item>, n: nat, env: Env)
    ensures Acceptable(items, n, env) <==>
            && (forall i, j :: 0 <= i < j < n ==> ClassifiesOnce(items, i, j))
            && (forall k :: 0 <= k < |items| ==>
              Confident(items[k]) && InRange(items[k], n) && env.content(items[k].rationale).Some?)
  {
    if Acceptable(items, n, env) {
      forall i, j | 0 <= i < j < n ensures ClassifiesOnce(items, i, j) { AcceptedCoversEveryPair(items, n, i, j, env); }
    } else if forall i, j :: 0 <= i < j < n ==> ClassifiesOnce(items, i, j) {
      if forall k :: 0 <= k < |items| ==>
        Confident(items[k]) && InRange(items[k], n) && env.content(items[k].rationale).Some? {
        OnceEachIsDistinct(items, n);
        DistinctPairsCount(items);
        AllPairsSize(n);
        assert PairsOf(items) == AllPairs(n);
      }
    }
  }

  lemma OnceEachIsDistinct(items: seq<Item>, n: nat)
    requires forall i, j :: 0 <= i < j < n ==> ClassifiesOnce(items, i, j)
    requires forall k :: 0 <= k < |items| ==> InRange(items[k], n)
    ensures DistinctPairs(items) && PairsOf(items) == AllPairs(n)
  {
    forall a, b | 0 <= a < b < |items| ensures PairAt(items, a) != PairAt(items, b) {
      assert ClassifiesOnce(items, items[a].left, items[a].right);
    }
    forall p | p in AllPairs(n) ensures p in PairsOf(items) {
      assert ClassifiesOnce(items, p.0, p.1);
      var k :| 0 <= k < |items| && PairAt(items, k) == (p.0, p.1);
      assert items[k] in items;
    }
  }

  /**
    The pairs reported are exactly the pairs marked as contradictions, each with what validation made
    of its rationale.
  */
  lemma {:induction false} ReportedAreMarked(items: seq<Item>, i: nat, j: nat, w: string, env: Env)
    requires forall k :: 0 <= k < |items| ==> env.content(items[k].rationale).Some?
    ensures Violation(i, j, w) in Reported(items, env) <==>
            exists item :: item in items && item.left == i && item.right == j && item.contradiction
                           && env.content(item.rationale) == Some(w)
    decreases |items|
  {
    if items != [] {
      var k := |items| - 1;
      var front, last := items[..k], items[k];
      ReportedAreMarked(front, i, j, w, env);
      assert items == front + [last];
    }
  }
}
