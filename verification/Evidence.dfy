/**
  Evidence forests: from the evidence of a product back to its sources, depth first, each URI
  read and shown at most once, over a graph whose reads and listings may fail.
*/
module Evidence {
  import opened Prelude

  /** A URI, numbered by the place of its canonical string among all of them. */
  datatype Uri = Uri(rank: nat)

  datatype EvidenceNode = EvidenceNode(uri: Uri, summary: string, children: seq<EvidenceNode>)

  /** The stores as they answer during one call; `Err` is any failure. */
  datatype Env = Env(
    maxDepth: nat,
    read: Uri -> Result<string, string>,               // the sparse text at L0
    derivedFrom: Uri -> Result<seq<Uri>, string>,      // outgoing neighbours
    evidenceOf: Uri -> Result<seq<Uri>, string>)       // incoming neighbours

  const SUMMARY: nat := 240

  function Summary(text: string): string { if |text| > SUMMARY then text[..SUMMARY] + "…" else text }

  function Insert(u: Uri, sorted: seq<Uri>): seq<Uri>
  {
    if sorted == [] || u.rank <= sorted[0].rank then [u] + sorted else [sorted[0]] + Insert(u, sorted[1..])
  }

  function Sort(us: seq<Uri>): seq<Uri> { if us == [] then [] else Insert(us[0], Sort(us[1..])) }

  function Dedup(us: seq<Uri>): seq<Uri>
  {
    if |us| <= 1 then us else if us[0] == us[1] then Dedup(us[1..]) else [us[0]] + Dedup(us[1..])
  }

  function Prepared(us: seq<Uri>): seq<Uri> { Dedup(Sort(us)) }

  /** The children a node may get; listing them may fail. */
  function Candidates(u: Uri, env: Env): Result<seq<Uri>, string>
  {
    var out := env.derivedFrom(u);
    if out.Err? then Err(out.error)
    else
      var into := env.evidenceOf(u);
      if into.Err? then Err(into.error) else Ok(Prepared(out.value + into.value))
  }

  // ------------------------------------------------------------------ the search as functions

  function Build(u: Uri, depth: nat, seen: set<Uri>, env: Env): Result<(EvidenceNode, set<Uri>), string>
    decreases if depth <= env.maxDepth then env.maxDepth - depth + 1 else 0, 0
  {
    var text := env.read(u);
    if text.Err? then Err(text.error)
    else if depth >= env.maxDepth then Ok((EvidenceNode(u, Summary(text.value), []), seen))
    else
      var candidates := Candidates(u, env);
      if candidates.Err? then Err(candidates.error)
      else
        var below := BuildAll(candidates.value, depth + 1, seen, env);
        if below.Err? then Err(below.error)
        else Ok((EvidenceNode(u, Summary(text.value), below.value.0), below.value.1))
  }

  function BuildAll(us: seq<Uri>, depth: nat, seen: set<Uri>, env: Env): Result<(seq<EvidenceNode>, set<Uri>), string>
    decreases if depth <= env.maxDepth then env.maxDepth - depth + 1 else 0, |us| + 1
  {
    if us == [] then Ok(([], seen))
    else if us[0] in seen then BuildAll(us[1..], depth, seen, env)
    else
      var first := Build(us[0], depth, seen + {us[0]}, env);
      if first.Err? then Err(first.error)
      else Before([first.value.0], BuildAll(us[1..], depth, first.value.1, env))
  }

  function Before(nodes: seq<EvidenceNode>, rest: Result<(seq<EvidenceNode>, set<Uri>), string>)
    : Result<(seq<EvidenceNode>, set<Uri>), string>
  {
    match rest
    case Err(e) => Err(e)
    case Ok(r) => Ok((nodes + r.0, r.1))
  }

  /** `explain_async`: the evidence chain. */
  function Explain(evidence: seq<Uri>, env: Env): Result<seq<EvidenceNode>, string>
  {
    var r := BuildAll(Prepared(evidence), 0, {}, env);
    if r.Err? then Err(r.error) else Ok(r.value.0)
  }

  // ------------------------------------------------------------------ the search as its loops

  method BuildNode(u: Uri, depth: nat, visited: set<Uri>, env: Env)
    returns (r: Result<EvidenceNode, string>, after: set<Uri>)
    ensures match r
            case Ok(n) => Build(u, depth, visited, env) == Ok((n, after))
            case Err(e) => Build(u, depth, visited, env) == Err(e)
    decreases if depth <= env.maxDepth then env.maxDepth - depth + 1 else 0, 0
  {
    after := visited;
    var text := env.read(u);
    if text.Err? { return Err(text.error), after; }
    var children := [];
    if depth < env.maxDepth {
      var candidates := Candidates(u, env);
      if candidates.Err? { return Err(candidates.error), after; }
      var c := candidates.value;
      var i := 0;
      BeforeNothing(BuildAll(c, depth + 1, visited, env));
      assert c[0..] == c;
      while i < |c|
        invariant 0 <= i <= |c|
        invariant BuildAll(c, depth + 1, visited, env) == Before(children, BuildAll(c[i..], depth + 1, after, env))
      {
        assert c[i..][0] == c[i] && c[i..][1..] == c[i + 1..];
        if c[i] !in after {
          var child, now := BuildNode(c[i], depth + 1, after + {c[i]}, env);
          if child.Err? { return Err(child.error), after; }
          BeforeTwice(children, child.value, BuildAll(c[i + 1..], depth + 1, now, env));
          children, after := children + [child.value], now;
        }
        i := i + 1;
      }
      assert c[i..] == [] && children + [] == children;
    }
    r := Ok(EvidenceNode(u, Summary(text.value), children));
  }

  lemma BeforeNothing(rest: Result<(seq<EvidenceNode>, set<Uri>), string>)
    ensures Before([], rest) == rest
  {
    if rest.Ok? { assert [] + rest.value.0 == rest.value.0; }
  }

  lemma BeforeTwice(nodes: seq<EvidenceNode>, n: EvidenceNode, rest: Result<(seq<EvidenceNode>, set<Uri>), string>)
    ensures Before(nodes, Before([n], rest)) == Before(nodes + [n], rest)
  {
    if rest.Ok? { assert nodes + ([n] + rest.value.0) == nodes + [n] + rest.value.0; }
  }

  method ExplainAsync(evidence: seq<Uri>, env: Env) returns (r: Result<seq<EvidenceNode>, string>)
    ensures r == Explain(evidence, env)
  {
    var roots := Prepared(evidence);
    var visited: set<Uri> := {};
    var children := [];
    var i := 0;
    BeforeNothing(BuildAll(roots, 0, {}, env));
    assert roots[0..] == roots;
    while i < |roots|
      invariant 0 <= i <= |roots|
      invariant BuildAll(roots, 0, {}, env) == Before(children, BuildAll(roots[i..], 0, visited, env))
    {
      assert roots[i..][0] == roots[i] && roots[i..][1..] == roots[i + 1..];
      if roots[i] !in visited {
        var child, now := BuildNode(roots[i], 0, visited + {roots[i]}, env);
        if child.Err? { return Err(child.error); }
        BeforeTwice(children, child.value, BuildAll(roots[i + 1..], 0, now, env));
        children, visited := children + [child.value], now;
      }
      i := i + 1;
    }
    assert roots[i..] == [] && children + [] == children;
    r := Ok(children);
  }

  // ------------------------------------------------------------------ preparing lists

  lemma ElementsOf(u: Uri, s: seq<Uri>)
    ensures Elements([u] + s) == {u} + Elements(s)
  {
  }

  lemma {:induction false} InsertKeeps(u: Uri, s: seq<Uri>)
    ensures Elements(Insert(u, s)) == Elements(s) + {u}
    decreases |s|
  {
    if s != [] && u.rank > s[0].rank {
      InsertKeeps(u, s[1..]);
      ElementsOf(s[0], s[1..]);
      ElementsOf(s[0], Insert(u, s[1..]));
      assert s == [s[0]] + s[1..];
    } else {
      ElementsOf(u, s);
    }
  }

  lemma {:induction false} SortKeeps(us: seq<Uri>)
    ensures Elements(Sort(us)) == Elements(us)
    decreases |us|
  {
    if us != [] {
      SortKeeps(us[1..]);
      InsertKeeps(us[0], Sort(us[1..]));
      assert us == [us[0]] + us[1..];
    }
  }

  lemma {:induction false} DedupKeeps(us: seq<Uri>)
    ensures Elements(Dedup(us)) == Elements(us)
    decreases |us|
  {
    if |us| > 1 {
      DedupKeeps(us[1..]);
      ElementsOf(us[0], us[1..]);
      ElementsOf(us[0], Dedup(us[1..]));
      assert us == [us[0]] + us[1..];
      assert us[0] == us[1] ==> us[0] in us[1..];
    }
  }

  lemma PreparedKeeps(us: seq<Uri>)
    ensures Elements(Prepared(us)) == Elements(us)
  {
    SortKeeps(us);
    DedupKeeps(Sort(us));
  }

  // ------------------------------------------------------------------ what a forest shows

  /** The URIs of a forest, in the order they are printed. */
  function Listing(nodes: seq<EvidenceNode>): seq<Uri>
  {
    if nodes == [] then [] else [nodes[0].uri] + Listing(nodes[0].children) + Listing(nodes[1..])
  }

  /** `u` stands at depth `d` of the forest. */
  ghost predicate At(nodes: seq<EvidenceNode>, u: Uri, d: nat)
  {
    nodes != [] && ((if d == 0 then nodes[0].uri == u else At(nodes[0].children, u, d - 1)) || At(nodes[1..], u, d))
  }

  /** `u` ends a chain of `d` evidence links from one of `roots`. */
  ghost predicate Reaches(roots: set<Uri>, u: Uri, d: nat, env: Env)
    decreases d
  {
    if d == 0 then u in roots else exists v :: Reaches(roots, v, d - 1, env) && Linked(v, u, env)
  }

  /** The graph says that `v` rests on `u`, one way or the other. */
  ghost predicate Linked(v: Uri, u: Uri, env: Env)
  {
    env.derivedFrom(v).Ok? && env.evidenceOf(v).Ok? && (u in env.derivedFrom(v).value || u in env.evidenceOf(v).value)
  }

  /** The children of `u` exactly are the URIs it is linked to. */
  lemma CandidatesAreLinks(u: Uri, env: Env)
    requires Candidates(u, env).Ok?
    ensures forall x :: x in Elements(Candidates(u, env).value) <==> Linked(u, x, env)
  {
    PreparedKeeps(env.derivedFrom(u).value + env.evidenceOf(u).value);
  }

  /**
    Every node of a forest that starts at `depth`: read, not too deep, below a URI it is linked to,
    and childless only where it must be.
  */
  ghost predicate Proper(nodes: seq<EvidenceNode>, depth: nat, env: Env)
  {
    nodes != [] ==>
      && depth <= env.maxDepth
      && env.read(nodes[0].uri).Ok? && nodes[0].summary == Summary(env.read(nodes[0].uri).value)
      && (if depth == env.maxDepth then nodes[0].children == [] else Candidates(nodes[0].uri, env).Ok?)
      && (forall c :: c in nodes[0].children ==> Linked(nodes[0].uri, c.uri, env))
      && Proper(nodes[0].children, depth + 1, env)
      && Proper(nodes[1..], depth, env)
  }

  /** Everything a node above the depth limit is linked to has been seen. */
  ghost predicate Explored(nodes: seq<EvidenceNode>, depth: nat, seen: set<Uri>, env: Env)
  {
    nodes != [] ==>
      && (depth < env.maxDepth ==> forall x :: Linked(nodes[0].uri, x, env) ==> x in seen)
      && Explored(nodes[0].children, depth + 1, seen, env)
      && Explored(nodes[1..], depth, seen, env)
  }

  lemma {:induction false} ExploredGrows(nodes: seq<EvidenceNode>, depth: nat, seen: set<Uri>, more: set<Uri>, env: Env)
    requires Explored(nodes, depth, seen, env) && seen <= more
    ensures Explored(nodes, depth, more, env)
  {
    if nodes != [] {
      ExploredGrows(nodes[0].children, depth + 1, seen, more, env);
      ExploredGrows(nodes[1..], depth, seen, more, env);
    }
  }

  /** What one call of the search over a list of candidates adds. */
  ghost predicate Grown(us: seq<Uri>, depth: nat, seen: set<Uri>, nodes: seq<EvidenceNode>, after: set<Uri>, env: Env)
  {
    && seen <= after && Elements(us) <= after
    && Distinct(Listing(nodes)) && Elements(Listing(nodes)) == after - seen
    && (forall n :: n in nodes ==> n.uri in us)
    && Proper(nodes, depth, env) && Explored(nodes, depth, after, env)
  }

  lemma {:induction false} BuildGrows(u: Uri, depth: nat, seen: set<Uri>, env: Env)
    requires Build(u, depth, seen, env).Ok? && depth <= env.maxDepth && u in seen
    ensures var (n, after) := Build(u, depth, seen, env).value;
            && n.uri == u && seen <= after
            && Distinct(Listing(n.children)) && Elements(Listing(n.children)) == after - seen
            && Proper([n], depth, env) && Explored([n], depth, after, env)
    decreases env.maxDepth - depth + 1, 0
  {
    var (n, after) := Build(u, depth, seen, env).value;
    assert [n][1..] == [];
    if depth < env.maxDepth {
      BuildAllGrows(Candidates(u, env).value, depth + 1, seen, env);
      CandidatesAreLinks(u, env);
    }
  }

  lemma {:induction false} BuildAllGrows(us: seq<Uri>, depth: nat, seen: set<Uri>, env: Env)
    requires BuildAll(us, depth, seen, env).Ok? && depth <= env.maxDepth
    ensures var (nodes, after) := BuildAll(us, depth, seen, env).value; Grown(us, depth, seen, nodes, after, env)
    decreases env.maxDepth - depth + 1, |us| + 1
  {
    if us == [] {
    } else if us[0] in seen {
      BuildAllGrows(us[1..], depth, seen, env);
    } else {
      var (n, mid) := Build(us[0], depth, seen + {us[0]}, env).value;
      var (rest, after) := BuildAll(us[1..], depth, mid, env).value;
      BuildGrows(us[0], depth, seen + {us[0]}, env);
      BuildAllGrows(us[1..], depth, mid, env);
      GrownTogether(us, depth, seen, n, mid, rest, after, env);
    }
  }

  lemma GrownTogether(us: seq<Uri>, depth: nat, seen: set<Uri>, n: EvidenceNode, mid: set<Uri>,
    rest: seq<EvidenceNode>, after: set<Uri>, env: Env)
    requires us != [] && us[0] !in seen && n.uri == us[0] && seen + {us[0]} <= mid
    requires Distinct(Listing(n.children)) && Elements(Listing(n.children)) == mid - (seen + {us[0]})
    requires Proper([n], depth, env) && Explored([n], depth, mid, env)
    requires Grown(us[1..], depth, mid, rest, after, env)
    ensures Grown(us, depth, seen, [n] + rest, after, env)
  {
    var nodes := [n] + rest;
    assert nodes[1..] == rest && [n][0] == n && us == [us[0]] + us[1..];
    ListingJoined(n, rest, seen, mid, after);
    ExploredGrows([n], depth, mid, after, env);
  }

  lemma ListingJoined(n: EvidenceNode, rest: seq<EvidenceNode>, seen: set<Uri>, mid: set<Uri>, after: set<Uri>)
    requires n.uri !in seen && seen + {n.uri} <= mid <= after
    requires Distinct(Listing(n.children)) && Elements(Listing(n.children)) == mid - (seen + {n.uri})
    requires Distinct(Listing(rest)) && Elements(Listing(rest)) == after - mid
    ensures Distinct(Listing([n] + rest)) && Elements(Listing([n] + rest)) == after - seen
  {
    var a, b := Listing(n.children), Listing(rest);
    assert ([n] + rest)[1..] == rest;
    assert Listing([n] + rest) == [n.uri] + a + b;
    forall x ensures x in Listing([n] + rest) <==> x in after - seen {
      assert x in a <==> x in Elements(a);
      assert x in b <==> x in Elements(b);
    }
    DistinctJoined(n.uri, a, b);
  }

  lemma DistinctJoined(u: Uri, a: seq<Uri>, b: seq<Uri>)
    requires Distinct(a) && Distinct(b) && u !in Elements(a) && u !in Elements(b) && Elements(a) !! Elements(b)
    ensures Distinct([u] + a + b)
  {
    forall i, j | 0 <= i < j < |[u] + a + b| ensures ([u] + a + b)[i] != ([u] + a + b)[j] {
      assert j > |a| ==> ([u] + a + b)[j] in Elements(b);
      assert j <= |a| ==> ([u] + a + b)[j] in Elements(a);
      assert 0 < i <= |a| ==> ([u] + a + b)[i] in Elements(a);
    }
  }

  // ------------------------------------------------------------------ main results

  /** No URI is shown twice, and every root is shown. */
  lemma ForestIsDistinct(evidence: seq<Uri>, env: Env)
    requires Explain(evidence, env).Ok?
    ensures var forest := Explain(evidence, env).value;
            && Distinct(Listing(forest)) && Elements(evidence) <= Elements(Listing(forest))
            && Proper(forest, 0, env) && Explored(forest, 0, Elements(Listing(forest)), env)
  {
    BuildAllGrows(Prepared(evidence), 0, {}, env);
    PreparedKeeps(evidence);
    var after := BuildAll(Prepared(evidence), 0, {}, env).value.1;
    assert after - {} == after;
  }

  /** What stands at depth `d` was really reached in `d` links, and `d` is within the limit. */
  lemma EveryNodeIsReached(evidence: seq<Uri>, u: Uri, d: nat, env: Env)
    requires Explain(evidence, env).Ok? && At(Explain(evidence, env).value, u, d)
    ensures d <= env.maxDepth && Reaches(Elements(evidence), u, d, env)
    ensures u in Listing(Explain(evidence, env).value)
  {
    var forest := Explain(evidence, env).value;
    BuildAllGrows(Prepared(evidence), 0, {}, env);
    PreparedKeeps(evidence);
    PlacedIsReached(forest, Elements(evidence), 0, u, d, env);
  }

  lemma {:induction false} PlacedIsReached(nodes: seq<EvidenceNode>, roots: set<Uri>, depth: nat, u: Uri, d: nat,
    env: Env)
    requires Proper(nodes, depth, env) && At(nodes, u, d)
    requires forall n :: n in nodes ==> Reaches(roots, n.uri, depth, env)
    ensures depth + d <= env.maxDepth && Reaches(roots, u, depth + d, env) && u in Listing(nodes)
  {
    if d == 0 && nodes[0].uri == u {
    } else if d > 0 && At(nodes[0].children, u, d - 1) {
      forall c | c in nodes[0].children ensures Reaches(roots, c.uri, depth + 1, env) {
        assert Reaches(roots, nodes[0].uri, depth, env) && Linked(nodes[0].uri, c.uri, env);
      }
      PlacedIsReached(nodes[0].children, roots, depth + 1, u, d - 1, env);
    } else {
      PlacedIsReached(nodes[1..], roots, depth, u, d, env);
    }
  }

  /** Whatever is listed stands somewhere, at a depth bounded by the number of URIs listed. */
  lemma {:induction false} ListedIsPlaced(nodes: seq<EvidenceNode>, u: Uri) returns (d: nat)
    requires u in Listing(nodes)
    ensures At(nodes, u, d) && d < |Listing(nodes)|
  {
    if nodes[0].uri == u {
      d := 0;
    } else if u in Listing(nodes[0].children) {
      var k := ListedIsPlaced(nodes[0].children, u);
      d := k + 1;
    } else {
      d := ListedIsPlaced(nodes[1..], u);
    }
  }

  ghost predicate Reachable(roots: set<Uri>, u: Uri, env: Env) { exists d: nat :: Reaches(roots, u, d, env) }

  /** Only reachable URIs are shown. */
  lemma ForestIsReachable(evidence: seq<Uri>, u: Uri, env: Env)
    requires Explain(evidence, env).Ok? && u in Listing(Explain(evidence, env).value)
    ensures Reachable(Elements(evidence), u, env)
  {
    var d := ListedIsPlaced(Explain(evidence, env).value, u);
    EveryNodeIsReached(evidence, u, d, env);
  }

  /** Nothing hangs below the nodes at the depth limit that is not shown already. */
  ghost predicate NothingCutOff(forest: seq<EvidenceNode>, env: Env)
  {
    forall u, x :: At(forest, u, env.maxDepth) && Linked(u, x, env) ==> x in Listing(forest)
  }

  lemma {:induction false} ExploredAt(nodes: seq<EvidenceNode>, depth: nat, seen: set<Uri>, u: Uri, d: nat, env: Env)
    requires Explored(nodes, depth, seen, env) && At(nodes, u, d) && depth + d < env.maxDepth
    ensures forall x :: Linked(u, x, env) ==> x in seen
  {
    if d == 0 && nodes[0].uri == u {
    } else if d > 0 && At(nodes[0].children, u, d - 1) {
      ExploredAt(nodes[0].children, depth + 1, seen, u, d - 1, env);
    } else {
      ExploredAt(nodes[1..], depth, seen, u, d, env);
    }
  }

  /** What a listed URI above the limit is linked to is listed. */
  lemma ShallowIsClosed(evidence: seq<Uri>, v: Uri, k: nat, u: Uri, env: Env)
    requires Explain(evidence, env).Ok? && At(Explain(evidence, env).value, v, k) && k < env.maxDepth
             && Linked(v, u, env)
    ensures u in Listing(Explain(evidence, env).value)
  {
    var forest := Explain(evidence, env).value;
    ForestIsDistinct(evidence, env);
    ExploredAt(forest, 0, Elements(Listing(forest)), v, k, env);
    assert u in Elements(Listing(forest));
  }

  lemma ListingIsClosed(evidence: seq<Uri>, v: Uri, u: Uri, env: Env)
    requires Explain(evidence, env).Ok? && NothingCutOff(Explain(evidence, env).value, env)
    requires v in Listing(Explain(evidence, env).value) && Linked(v, u, env)
    ensures u in Listing(Explain(evidence, env).value)
  {
    var k := ListedIsPlaced(Explain(evidence, env).value, v);
    EveryNodeIsReached(evidence, v, k, env);
    if k < env.maxDepth { ShallowIsClosed(evidence, v, k, u, env); }
  }

  lemma {:induction false} NothingCutOffIsClosed(evidence: seq<Uri>, u: Uri, d: nat, env: Env)
    requires Explain(evidence, env).Ok? && NothingCutOff(Explain(evidence, env).value, env)
    requires Reaches(Elements(evidence), u, d, env)
    ensures u in Listing(Explain(evidence, env).value)
    decreases d
  {
    if d == 0 {
      ForestIsDistinct(evidence, env);
      assert u in Elements(Listing(Explain(evidence, env).value));
    } else {
      var v :| Reaches(Elements(evidence), v, d - 1, env) && Linked(v, u, env);
      NothingCutOffIsClosed(evidence, v, d - 1, env);
      ListingIsClosed(evidence, v, u, env);
    }
  }

  /** The forest is exactly the reachable set if and only if the depth limit cuts nothing off. */
  lemma CompleteIff(evidence: seq<Uri>, env: Env)
    requires Explain(evidence, env).Ok?
    ensures var forest := Explain(evidence, env).value;
            (forall u :: u in Listing(forest) <==> Reachable(Elements(evidence), u, env)) <==>
              NothingCutOff(forest, env)
  {
    var forest := Explain(evidence, env).value;
    var roots := Elements(evidence);
    if NothingCutOff(forest, env) {
      forall u ensures u in Listing(forest) <==> Reachable(roots, u, env) {
        if u in Listing(forest) {
          ForestIsReachable(evidence, u, env);
        } else if Reachable(roots, u, env) {
          var d: nat :| Reaches(roots, u, d, env);
          NothingCutOffIsClosed(evidence, u, d, env);
        }
      }
    }
    if forall u :: u in Listing(forest) <==> Reachable(roots, u, env) {
      forall u, x | At(forest, u, env.maxDepth) && Linked(u, x, env) ensures x in Listing(forest) {
        EveryNodeIsReached(evidence, u, env.maxDepth, env);
        assert Reaches(roots, x, env.maxDepth + 1, env);
      }
    }
  }

  /** Within the limit: at most `maxDepth` links from a root. */
  ghost predicate Near(roots: set<Uri>, u: Uri, env: Env)
  {
    exists d: nat :: d <= env.maxDepth && Reaches(roots, u, d, env)
  }

  /** Whatever near URI hangs below the nodes at the depth limit is shown. */
  ghost predicate NothingNearCutOff(forest: seq<EvidenceNode>, roots: set<Uri>, env: Env)
  {
    forall u, x :: At(forest, u, env.maxDepth) && Linked(u, x, env) && Near(roots, x, env) ==> x in Listing(forest)
  }

  lemma NearListingIsClosed(evidence: seq<Uri>, v: Uri, u: Uri, env: Env)
    requires Explain(evidence, env).Ok? && NothingNearCutOff(Explain(evidence, env).value, Elements(evidence), env)
    requires v in Listing(Explain(evidence, env).value) && Linked(v, u, env) && Near(Elements(evidence), u, env)
    ensures u in Listing(Explain(evidence, env).value)
  {
    var k := ListedIsPlaced(Explain(evidence, env).value, v);
    EveryNodeIsReached(evidence, v, k, env);
    if k < env.maxDepth { ShallowIsClosed(evidence, v, k, u, env); }
  }

  lemma {:induction false} NearIsShown(evidence: seq<Uri>, u: Uri, d: nat, env: Env)
    requires Explain(evidence, env).Ok? && NothingNearCutOff(Explain(evidence, env).value, Elements(evidence), env)
    requires d <= env.maxDepth && Reaches(Elements(evidence), u, d, env)
    ensures u in Listing(Explain(evidence, env).value)
    decreases d
  {
    if d == 0 {
      ForestIsDistinct(evidence, env);
      assert u in Elements(Listing(Explain(evidence, env).value));
    } else {
      var v :| Reaches(Elements(evidence), v, d - 1, env) && Linked(v, u, env);
      NearIsShown(evidence, v, d - 1, env);
      NearListingIsClosed(evidence, v, u, env);
    }
  }

  /** The forest is exactly what lies within the limit if and only if it shows the near URIs it cuts off somewhere. */
  lemma NearSourcesShownIff(evidence: seq<Uri>, env: Env)
    requires Explain(evidence, env).Ok?
    ensures var forest := Explain(evidence, env).value;
            (forall u :: u in Listing(forest) <==> Near(Elements(evidence), u, env))
            <==> NothingNearCutOff(forest, Elements(evidence), env)
  {
    var forest := Explain(evidence, env).value;
    if NothingNearCutOff(forest, Elements(evidence), env) {
      forall u ensures u in Listing(forest) <==> Near(Elements(evidence), u, env) {
        if u in Listing(forest) {
          var d := ListedIsPlaced(forest, u);
          EveryNodeIsReached(evidence, u, d, env);
        }
        if Near(Elements(evidence), u, env) {
          var d: nat :| d <= env.maxDepth && Reaches(Elements(evidence), u, d, env);
          NearIsShown(evidence, u, d, env);
        }
      }
    }
  }

  /** No URI is both nearer than the limit and exactly at it. */
  ghost predicate NoDetour(roots: set<Uri>, env: Env)
  {
    forall u, d: nat :: d < env.maxDepth && Reaches(roots, u, d, env) ==> !Reaches(roots, u, env.maxDepth, env)
  }

  /** A graph without such detours hides no source: the depth a node is met at then does not matter. */
  lemma NoDetourHidesNothing(evidence: seq<Uri>, env: Env)
    requires Explain(evidence, env).Ok? && NoDetour(Elements(evidence), env)
    ensures forall u :: u in Listing(Explain(evidence, env).value) <==> Near(Elements(evidence), u, env)
  {
    var forest, roots := Explain(evidence, env).value, Elements(evidence);
    forall u | Near(roots, u, env) ensures u in Listing(forest) {
      var d: nat :| d <= env.maxDepth && Reaches(roots, u, d, env);
      WithoutDetour(evidence, u, d, env);
    }
    forall u | u in Listing(forest) ensures Near(roots, u, env) {
      var d := ListedIsPlaced(forest, u);
      EveryNodeIsReached(evidence, u, d, env);
    }
  }

  lemma {:induction false} WithoutDetour(evidence: seq<Uri>, u: Uri, d: nat, env: Env)
    requires Explain(evidence, env).Ok? && NoDetour(Elements(evidence), env)
    requires d <= env.maxDepth && Reaches(Elements(evidence), u, d, env)
    ensures u in Listing(Explain(evidence, env).value)
    decreases d
  {
    if d == 0 {
      ForestIsDistinct(evidence, env);
      assert u in Elements(Listing(Explain(evidence, env).value));
    } else {
      var v :| Reaches(Elements(evidence), v, d - 1, env) && Linked(v, u, env);
      WithoutDetour(evidence, v, d - 1, env);
      var k := ListedIsPlaced(Explain(evidence, env).value, v);
      EveryNodeIsReached(evidence, v, k, env);
      ShallowIsClosed(evidence, v, k, u, env);
    }
  }

  /** A limit no smaller than the number of reachable URIs cuts nothing off. */
  lemma CompleteWhenDeepEnough(evidence: seq<Uri>, reach: set<Uri>, env: Env)
    requires Explain(evidence, env).Ok?
    requires forall u :: u in reach <==> Reachable(Elements(evidence), u, env)
    requires env.maxDepth >= |reach|
    ensures Elements(Listing(Explain(evidence, env).value)) == reach
  {
    var forest := Explain(evidence, env).value;
    ForestIsDistinct(evidence, env);
    forall u | u in Listing(forest) ensures u in reach {
      ForestIsReachable(evidence, u, env);
    }
    DistinctCardinality(Listing(forest));
    SubsetCardinality(Elements(Listing(forest)), reach);
    forall u ensures !At(forest, u, env.maxDepth) {
      if At(forest, u, env.maxDepth) { AtIsShallow(forest, u, env.maxDepth); }
    }
    CompleteIff(evidence, env);
  }

  lemma {:induction false} AtIsShallow(nodes: seq<EvidenceNode>, u: Uri, d: nat)
    requires At(nodes, u, d)
    ensures d < |Listing(nodes)|
  {
    if d > 0 && At(nodes[0].children, u, d - 1) {
      AtIsShallow(nodes[0].children, u, d - 1);
    } else if At(nodes[1..], u, d) {
      AtIsShallow(nodes[1..], u, d);
    }
  }

  /** A URI within the depth limit that cannot be read, or cannot be listed though it should be. */
  ghost predicate Broken(roots: set<Uri>, u: Uri, d: nat, env: Env)
  {
    && d <= env.maxDepth && Reaches(roots, u, d, env)
    && (env.read(u).Err? || (d < env.maxDepth && Candidates(u, env).Err?))
  }

  /** The call fails only over a reachable URI that is broken. */
  lemma FailureHasACause(evidence: seq<Uri>, env: Env)
    requires Explain(evidence, env).Err?
    ensures exists u, d :: Broken(Elements(evidence), u, d, env)
  {
    PreparedKeeps(evidence);
    forall x | x in Prepared(evidence) ensures Reaches(Elements(evidence), x, 0, env) {
      assert x in Elements(Prepared(evidence));
    }
    BuildAllFails(Prepared(evidence), 0, {}, Elements(evidence), env);
  }

  lemma {:induction false} BuildAllFails(us: seq<Uri>, depth: nat, seen: set<Uri>, roots: set<Uri>, env: Env)
    requires BuildAll(us, depth, seen, env).Err? && depth <= env.maxDepth
    requires forall x :: x in us ==> Reaches(roots, x, depth, env)
    ensures exists u, d :: Broken(roots, u, d, env)
    decreases env.maxDepth - depth + 1, |us|
  {
    if us[0] in seen {
      BuildAllFails(us[1..], depth, seen, roots, env);
    } else {
      var first := Build(us[0], depth, seen + {us[0]}, env);
      if first.Ok? {
        BuildAllFails(us[1..], depth, first.value.1, roots, env);
      } else if env.read(us[0]).Err? || Candidates(us[0], env).Err? {
        assert Broken(roots, us[0], depth, env);
      } else {
        CandidatesAreLinks(us[0], env);
        forall x | x in Candidates(us[0], env).value ensures Reaches(roots, x, depth + 1, env) {
          assert x in Elements(Candidates(us[0], env).value) && Reaches(roots, us[0], depth, env);
        }
        BuildAllFails(Candidates(us[0], env).value, depth + 1, seen + {us[0]}, roots, env);
      }
    }
  }

  // ------------------------------------------------------------------ a near source that is missed

  /** 0 rests on 1 and 2, 1 rests on 2, and 2 rests on 3. */
  function Diamond(u: Uri): Result<seq<Uri>, string>
  {
    if u == Uri(0) then Ok([Uri(1), Uri(2)]) else if u == Uri(1) then Ok([Uri(2)]) else if u == Uri(2)
      then Ok([Uri(3)]) else Ok([])
  }

  function DiamondEnv(): Env { Env(2, u => Ok(""), Diamond, u => Ok([])) }

  /** 3 is two links away and the limit is two, but 2 is first met below 1, at the limit, and never revisited. */
  lemma NearSourceMissed()
    ensures Explain([Uri(0)], DiamondEnv()).Ok?
    ensures Listing(Explain([Uri(0)], DiamondEnv()).value) == [Uri(0), Uri(1), Uri(2)]
    ensures Reaches({Uri(0)}, Uri(3), 2, DiamondEnv())
  {
    var env := DiamondEnv();
    var two := EvidenceNode(Uri(2), "", []);
    var one := EvidenceNode(Uri(1), "", [two]);
    var zero := EvidenceNode(Uri(0), "", [one]);
    var seen := {Uri(0), Uri(1), Uri(2)};
    DiamondCandidates();
    assert {Uri(0), Uri(1)} + {Uri(2)} == seen;
    assert Build(Uri(2), 2, seen, env) == Ok((two, seen));
    assert [Uri(2)][1..] == [] && [two] + [] == [two];
    assert BuildAll([Uri(2)], 2, {Uri(0), Uri(1)}, env) == Ok(([two], seen));
    assert {Uri(0)} + {Uri(1)} == {Uri(0), Uri(1)};
    assert Build(Uri(1), 1, {Uri(0), Uri(1)}, env) == Ok((one, seen));
    assert [Uri(1), Uri(2)][1..] == [Uri(2)];
    assert BuildAll([Uri(2)], 1, seen, env) == Ok(([], seen));
    assert [one] + [] == [one] && [zero] + [] == [zero];
    assert BuildAll([Uri(1), Uri(2)], 1, {Uri(0)}, env) == Ok(([one], seen));
    assert {} + {Uri(0)} == {Uri(0)};
    assert Build(Uri(0), 0, {Uri(0)}, env) == Ok((zero, seen));
    assert [Uri(0)][1..] == [] && Prepared([Uri(0)]) == [Uri(0)];
    assert BuildAll([Uri(0)], 0, {}, env) == Ok(([zero], seen));
    assert Listing([two]) == [Uri(2)] && Listing([one]) == [Uri(1), Uri(2)];
    assert Linked(Uri(0), Uri(2), env) && Linked(Uri(2), Uri(3), env);
    assert Reaches({Uri(0)}, Uri(0), 0, env) && Reaches({Uri(0)}, Uri(2), 1, env);
  }

  lemma DiamondCandidates()
    ensures Candidates(Uri(0), DiamondEnv()) == Ok([Uri(1), Uri(2)])
    ensures Candidates(Uri(1), DiamondEnv()) == Ok([Uri(2)])
  {
    assert [Uri(2)][1..] == [] && [Uri(1), Uri(2)][1..] == [Uri(2)];
    assert Sort([Uri(2)]) == [Uri(2)];
    assert Sort([Uri(1), Uri(2)]) == [Uri(1), Uri(2)];
    assert [Uri(2)] + [] == [Uri(2)] && [Uri(1), Uri(2)] + [] == [Uri(1), Uri(2)];
    assert Prepared([Uri(2)]) == [Uri(2)];
  }
}
