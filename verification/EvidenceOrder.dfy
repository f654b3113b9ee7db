/**
  The shape of an evidence forest: siblings ascend, and a source hangs at the first place the
  search comes by it.
*/
module EvidenceOrder {
  import opened Prelude
  import opened Evidence

  // ------------------------------------------------------------------ prepared lists ascend

  ghost predicate Ascends(us: seq<Uri>) { forall i, j :: 0 <= i < j < |us| ==> us[i].rank < us[j].rank }

  ghost predicate Weakly(us: seq<Uri>) { forall i, j :: 0 <= i < j < |us| ==> us[i].rank <= us[j].rank }

  lemma {:induction false} InsertAscends(u: Uri, s: seq<Uri>)
    requires Weakly(s)
    ensures Weakly(Insert(u, s))
    decreases |s|
  {
    if s != [] && u.rank > s[0].rank {
      InsertAscends(u, s[1..]);
      InsertKeeps(u, s[1..]);
      var rest := Insert(u, s[1..]);
      forall j | 0 <= j < |rest| ensures s[0].rank <= rest[j].rank {
        assert rest[j] in Elements(s[1..]) + {u};
      }
    }
  }

  lemma {:induction false} SortAscends(us: seq<Uri>)
    ensures Weakly(Sort(us))
    decreases |us|
  {
    if us != [] {
      SortAscends(us[1..]);
      InsertAscends(us[0], Sort(us[1..]));
    }
  }

  lemma {:induction false} DedupAscends(us: seq<Uri>)
    requires Weakly(us)
    ensures Ascends(Dedup(us))
    decreases |us|
  {
    if |us| > 1 {
      DedupAscends(us[1..]);
      if us[0] != us[1] {
        DedupKeeps(us[1..]);
        var rest := Dedup(us[1..]);
        assert us[0].rank < us[1].rank;
        forall j | 0 <= j < |rest| ensures us[0].rank < rest[j].rank {
          assert rest[j] in Elements(us[1..]);
        }
      }
    }
  }

  lemma PreparedAscends(us: seq<Uri>)
    ensures Ascends(Prepared(us)) && Elements(Prepared(us)) == Elements(us)
  {
    SortAscends(us);
    DedupAscends(Sort(us));
    PreparedKeeps(us);
  }

  // ------------------------------------------------------------------ the first place

  /**
    `x`, to be hung among `nodes` with `before` already shown: it is one of them, or it was shown
    earlier, at the latest below a smaller sibling.
  */
  ghost predicate Hung(nodes: seq<EvidenceNode>, before: set<Uri>, x: Uri)
  {
    if nodes == [] || x.rank < nodes[0].uri.rank then x in before
    else x == nodes[0].uri || Hung(nodes[1..], before + {nodes[0].uri} + Elements(Listing(nodes[0].children)), x)
  }

  /** What a forest shows for a text. */
  ghost predicate Shows(summary: string, text: string)
  {
    if |text| <= 240 then summary == text
    else |summary| == 241 && summary[..240] == text[..240] && summary[240] == '…'
  }

  /** Siblings ascend, each node is new, and everything a node above the limit is linked to hangs at its first place. */
  ghost predicate Walked(nodes: seq<EvidenceNode>, depth: nat, before: set<Uri>, env: Env)
  {
    nodes != [] ==>
      var n := nodes[0];
      && n.uri !in before && (|nodes| > 1 ==> n.uri.rank < nodes[1].uri.rank)
      && env.read(n.uri).Ok? && Shows(n.summary, env.read(n.uri).value)
      && (depth < env.maxDepth ==> forall x :: Linked(n.uri, x, env) ==> Hung(n.children, before + {n.uri}, x))
      && (depth >= env.maxDepth ==> n.children == [])
      && Walked(n.children, depth + 1, before + {n.uri}, env)
      && Walked(nodes[1..], depth, before + {n.uri} + Elements(Listing(n.children)), env)
  }

  ghost predicate HungAll(us: set<Uri>, nodes: seq<EvidenceNode>, before: set<Uri>)
  {
    forall x :: x in us ==> Hung(nodes, before, x)
  }

  lemma {:induction false} BuildWalks(u: Uri, depth: nat, seen: set<Uri>, env: Env)
    requires Build(u, depth, seen, env).Ok? && depth <= env.maxDepth && u in seen
    ensures var n := Build(u, depth, seen, env).value.0;
            && n.uri == u && env.read(u).Ok? && Shows(n.summary, env.read(u).value)
            && (depth < env.maxDepth ==> forall x :: Linked(u, x, env) ==> Hung(n.children, seen, x))
            && (depth >= env.maxDepth ==> n.children == [])
            && Walked(n.children, depth + 1, seen, env)
    decreases env.maxDepth - depth + 1, 0
  {
    if depth < env.maxDepth {
      BuildAllWalks(Candidates(u, env).value, depth + 1, seen, env) by {
        PreparedAscends(env.derivedFrom(u).value + env.evidenceOf(u).value);
      }
      CandidatesAreLinks(u, env);
    }
  }

  lemma {:induction false} BuildAllWalks(us: seq<Uri>, depth: nat, seen: set<Uri>, env: Env)
    requires BuildAll(us, depth, seen, env).Ok? && depth <= env.maxDepth && Ascends(us)
    ensures var nodes := BuildAll(us, depth, seen, env).value.0;
            Walked(nodes, depth, seen, env) && HungAll(Elements(us), nodes, seen)
    decreases env.maxDepth - depth + 1, |us| + 1
  {
    if us == [] {
    } else if us[0] in seen {
      BuildAllWalks(us[1..], depth, seen, env);
      BuildAllGrows(us[1..], depth, seen, env);
      SeenHangs(us, BuildAll(us, depth, seen, env).value.0, seen);
    } else {
      var (n, mid) := Build(us[0], depth, seen + {us[0]}, env).value;
      var rest := BuildAll(us[1..], depth, mid, env).value.0;
      BuildWalks(us[0], depth, seen + {us[0]}, env);
      BuildGrows(us[0], depth, seen + {us[0]}, env);
      BuildAllWalks(us[1..], depth, mid, env);
      BuildAllGrows(us[1..], depth, mid, env);
      WalkedTogether(us, depth, seen, n, mid, rest, env);
    }
  }

  lemma SeenHangs(us: seq<Uri>, nodes: seq<EvidenceNode>, seen: set<Uri>)
    requires us != [] && us[0] in seen && Ascends(us) && HungAll(Elements(us[1..]), nodes, seen)
    requires forall n :: n in nodes ==> n.uri in us[1..]
    ensures HungAll(Elements(us), nodes, seen)
  {
    assert nodes != [] ==> nodes[0].uri in us[1..];
    assert us == [us[0]] + us[1..];
    assert Hung(nodes, seen, us[0]);
  }

  lemma WalkedTogether(us: seq<Uri>, depth: nat, seen: set<Uri>, n: EvidenceNode, mid: set<Uri>,
                       rest: seq<EvidenceNode>, env: Env)
    requires us != [] && us[0] !in seen && n.uri == us[0] && Ascends(us)
    requires seen + {us[0]} <= mid && Elements(Listing(n.children)) == mid - (seen + {us[0]})
    requires env.read(n.uri).Ok? && Shows(n.summary, env.read(n.uri).value)
    requires depth < env.maxDepth ==> forall x :: Linked(n.uri, x, env) ==> Hung(n.children, seen + {n.uri}, x)
    requires depth >= env.maxDepth ==> n.children == []
    requires Walked(n.children, depth + 1, seen + {n.uri}, env)
    requires Walked(rest, depth, mid, env) && HungAll(Elements(us[1..]), rest, mid)
    requires forall r :: r in rest ==> r.uri in us[1..]
    ensures Walked([n] + rest, depth, seen, env) && HungAll(Elements(us), [n] + rest, seen)
  {
    var nodes := [n] + rest;
    assert nodes[1..] == rest && us == [us[0]] + us[1..];
    assert seen + {n.uri} + Elements(Listing(n.children)) == mid;
    if rest != [] { assert rest[0].uri in us[1..]; }
    forall x | x in Elements(us) ensures Hung(nodes, seen, x) {
      if x != us[0] {
        assert x in Elements(us[1..]);
        assert Hung(rest, mid, x);
      }
    }
  }

  // ------------------------------------------------------------------ main result

  /**
    The forest is the depth-first one: roots and siblings ascend, every root and every source of a node
    above the limit hangs where the search first comes by it, and nodes at the limit have no children.
  */
  lemma ForestIsDepthFirst(evidence: seq<Uri>, env: Env)
    requires Explain(evidence, env).Ok?
    ensures Walked(Explain(evidence, env).value, 0, {}, env)
    ensures forall x :: x in evidence ==> Hung(Explain(evidence, env).value, {}, x)
  {
    PreparedAscends(evidence);
    BuildAllWalks(Prepared(evidence), 0, {}, env);
    assert forall x :: x in evidence ==> x in Elements(evidence);
  }
}
