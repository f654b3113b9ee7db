/**
  Voting over samples: greedy clustering around unchanging representatives, a stable sort by
  votes, and the report that accepts or rejects the majority.  `f32` is read as `real`.
*/
module VoteClusters {
  /** A normalized answer, and its tokens: the lower-case words of three letters or more. */
  datatype Sample = Sample(text: nat, tokens: set<nat>)

  datatype Cluster = Cluster(representative: Sample, votes: nat, members: seq<Sample>, mean: real)

  datatype Env = Env(threshold: real, similarity: (Sample, Sample) -> real)

  /** The Jaccard similarity of the source. */
  function Jaccard(a: Sample, b: Sample): real
  {
    if a.tokens == {} && b.tokens == {} then 1.0
    else if |a.tokens + b.tokens| == 0 then 0.0
    else |a.tokens * b.tokens| as real / |a.tokens + b.tokens| as real
  }

  function Sum(ms: seq<Sample>, rep: Sample, env: Env): real
  {
    if ms == [] then 0.0 else Sum(ms[..|ms| - 1], rep, env) + env.similarity(ms[|ms| - 1], rep)
  }

  function NewCluster(s: Sample): Cluster { Cluster(s, 1, [s], 1.0) }

  function Joined(c: Cluster, s: Sample, env: Env): Cluster
  {
    var members := c.members + [s];
    Cluster(c.representative, c.votes + 1, members, Sum(members, c.representative, env) / |members| as real)
  }

  /** `max_by`: the last of the most similar representatives. */
  function Best(cs: seq<Cluster>, s: Sample, env: Env): (i: nat)
    requires cs != []
    ensures i < |cs|
    decreases |cs|
  {
    var n := |cs| - 1;
    if n == 0 then 0
    else
      var b := Best(cs[..n], s, env);
      if env.similarity(s, cs[n].representative) >= env.similarity(s, cs[b].representative) then n else b
  }

  /** Where one sample goes. */
  function Place(cs: seq<Cluster>, s: Sample, env: Env): seq<Cluster>
  {
    if cs != [] && env.similarity(s, cs[Best(cs, s, env)].representative) >= env.threshold then
      cs[Best(cs, s, env) := Joined(cs[Best(cs, s, env)], s, env)]
    else cs + [NewCluster(s)]
  }

  function Grouped(samples: seq<Sample>, env: Env): seq<Cluster>
  {
    if samples == [] then [] else Place(Grouped(samples[..|samples| - 1], env), samples[|samples| - 1], env)
  }

  /** The sort key: more votes first, then the higher mean. */
  predicate Ahead(a: Cluster, b: Cluster) { a.votes > b.votes || (a.votes == b.votes && a.mean >= b.mean) }

  function Insert(c: Cluster, sorted: seq<Cluster>): seq<Cluster>
  {
    if sorted == [] || Ahead(c, sorted[0]) then [c] + sorted else [sorted[0]] + Insert(c, sorted[1..])
  }

  function Sorted(cs: seq<Cluster>): seq<Cluster> { if cs == [] then [] else Insert(cs[0], Sorted(cs[1..])) }

  /** `cluster_samples`. */
  method ClusterSamples(samples: seq<Sample>, env: Env) returns (clusters: seq<Cluster>)
    ensures clusters == Sorted(Grouped(samples, env))
    ensures Sound(clusters, samples, env)
    ensures forall i, j :: 0 <= i < j < |clusters| ==>
              || clusters[i].votes > clusters[j].votes
              || (clusters[i].votes == clusters[j].votes && clusters[i].mean >= clusters[j].mean)
    ensures forall c :: c in clusters ==> MeanHolds(c, env)
    ensures Symmetric(env) ==> ApartBothWays(clusters, env)
  {
    clusters := [];
    for k := 0 to |samples|
      invariant clusters == Grouped(samples[..k], env)
    {
      assert samples[..k + 1][..k] == samples[..k];
      var sample := samples[k];
      var i := Home(clusters, sample, env);
      if i < |clusters| {
        clusters := clusters[i := Joined(clusters[i], sample, env)];
      } else {
        clusters := clusters + [NewCluster(sample)];
      }
    }
    assert samples[..|samples|] == samples;
    clusters := Sorted(clusters);
    ClustersAreSound(samples, env);
    MeansHold(samples, env);
  }

  lemma ClustersAreSound(samples: seq<Sample>, env: Env)
    ensures var cs := Sorted(Grouped(samples, env));
            Sound(cs, samples, env) && Descending(cs) && (Symmetric(env) ==> ApartBothWays(cs, env))
  {
    var cs := Grouped(samples, env);
    GroupedIsSound(samples, env);
    SortedIsDescending(cs);
    SortedKeeps(cs, samples, env);
    if Symmetric(env) { SymmetryPartsBothWays(Sorted(cs), env); }
  }

  // ------------------------------------------------------------------ what clusters are

  /** The members of all clusters, as often as they occur. */
  ghost function Members(cs: seq<Cluster>): multiset<Sample>
  {
    if cs == [] then multiset{} else Members(cs[..|cs| - 1]) + multiset(cs[|cs| - 1].members)
  }

  function Votes(cs: seq<Cluster>): nat { if cs == [] then 0 else Votes(cs[..|cs| - 1]) + cs[|cs| - 1].votes }

  /** Votes count members; every member is close enough to the representative, which is the first of them. */
  ghost predicate WellFormed(c: Cluster, env: Env)
  {
    && c.votes == |c.members| > 0 && c.members[0] == c.representative
    && forall i :: 0 < i < |c.members| ==> env.similarity(c.members[i], c.representative) >= env.threshold
  }

  /** Of two representatives, one was below the threshold of the other when it came. */
  ghost predicate Apart(a: Cluster, b: Cluster, env: Env)
  {
    env.similarity(a.representative, b.representative) < env.threshold
      || env.similarity(b.representative, a.representative) < env.threshold
  }

  ghost predicate AllApart(cs: seq<Cluster>, env: Env) { forall i, j :: 0 <= i < j < |cs| ==> Apart(cs[i], cs[j], env) }

  ghost predicate AllWellFormed(cs: seq<Cluster>, env: Env) { forall c :: c in cs ==> WellFormed(c, env) }

  ghost predicate Sound(cs: seq<Cluster>, samples: seq<Sample>, env: Env)
  {
    && Members(cs) == multiset(samples) && Votes(cs) == |samples|
    && AllWellFormed(cs, env) && AllApart(cs, env)
  }

  ghost predicate Descending(cs: seq<Cluster>) { forall i, j :: 0 <= i < j < |cs| ==> Ahead(cs[i], cs[j]) }

  lemma {:induction false} BestIsMost(cs: seq<Cluster>, s: Sample, env: Env)
    requires cs != []
    ensures forall j :: 0 <= j < |cs| ==>
            env.similarity(s, cs[j].representative) <= env.similarity(s, cs[Best(cs, s, env)].representative)
    decreases |cs|
  {
    var n := |cs| - 1;
    if n > 0 {
      BestIsMost(cs[..n], s, env);
      forall j | 0 <= j < |cs| ensures env.similarity(s, cs[j].representative) <= env.similarity(s,
        cs[Best(cs, s, env)].representative) {
        if j < n { assert cs[..n][j] == cs[j]; }
      }
    }
  }

  lemma {:induction false} MembersUpdate(cs: seq<Cluster>, i: nat, s: Sample, c: Cluster)
    requires i < |cs| && c.members == cs[i].members + [s] && c.votes == cs[i].votes + 1
    ensures Members(cs[i := c]) == Members(cs) + multiset{s} && Votes(cs[i := c]) == Votes(cs) + 1
    decreases |cs|
  {
    var n := |cs| - 1;
    if i < n {
      assert cs[i := c][..n] == cs[..n][i := c];
      MembersUpdate(cs[..n], i, s, c);
    } else {
      assert cs[i := c][..n] == cs[..n];
    }
  }

  lemma JoinKeeps(cs: seq<Cluster>, i: nat, samples: seq<Sample>, s: Sample, env: Env)
    requires Sound(cs, samples, env) && i < |cs| && env.similarity(s, cs[i].representative) >= env.threshold
    ensures Sound(cs[i := Joined(cs[i], s, env)], samples + [s], env)
  {
    MembersUpdate(cs, i, s, Joined(cs[i], s, env));
    assert WellFormed(cs[i], env);
    var more := cs[i := Joined(cs[i], s, env)];
    forall j, k | 0 <= j < k < |more| ensures Apart(more[j], more[k], env) { assert Apart(cs[j], cs[k], env); }
  }

  lemma PlaceKeeps(cs: seq<Cluster>, samples: seq<Sample>, s: Sample, env: Env)
    requires Sound(cs, samples, env)
    ensures Sound(Place(cs, s, env), samples + [s], env)
  {
    if cs != [] { BestIsMost(cs, s, env); }
    if cs != [] && env.similarity(s, cs[Best(cs, s, env)].representative) >= env.threshold {
      JoinKeeps(cs, Best(cs, s, env), samples, s, env);
    } else {
    }
  }

  /** The clusters partition the samples, whatever the similarity is. */
  lemma {:induction false} GroupedIsSound(samples: seq<Sample>, env: Env)
    ensures Sound(Grouped(samples, env), samples, env)
    decreases |samples|
  {
    if samples != [] {
      var n := |samples| - 1;
      GroupedIsSound(samples[..n], env);
      PlaceKeeps(Grouped(samples[..n], env), samples[..n], samples[n], env);
      assert samples[..n] + [samples[n]] == samples;
    }
  }

  ghost predicate Symmetric(env: Env) { forall a, b :: env.similarity(a, b) == env.similarity(b, a) }

  /** Any two representatives are below the threshold of each other, both ways. */
  ghost predicate ApartBothWays(cs: seq<Cluster>, env: Env)
  {
    forall i, j :: 0 <= i < |cs| && 0 <= j < |cs| && i != j ==>
      env.similarity(cs[i].representative, cs[j].representative) < env.threshold
  }

  lemma SymmetryPartsBothWays(cs: seq<Cluster>, env: Env)
    requires AllApart(cs, env) && Symmetric(env)
    ensures ApartBothWays(cs, env)
  {
    forall i, j | 0 <= i < |cs| && 0 <= j < |cs| && i != j
      ensures env.similarity(cs[i].representative, cs[j].representative) < env.threshold
    {
      assert if i < j then Apart(cs[i], cs[j], env) else Apart(cs[j], cs[i], env);
    }
  }

  /** The similarity of the source is symmetric, and 1 between an answer and itself. */
  lemma JaccardIsSymmetric(threshold: real)
    ensures Symmetric(Env(threshold, Jaccard)) && forall a :: Jaccard(a, a) == 1.0
  {
    forall a: Sample, b: Sample ensures Jaccard(a, b) == Jaccard(b, a) {
      assert a.tokens * b.tokens == b.tokens * a.tokens && a.tokens + b.tokens == b.tokens + a.tokens;
    }
    forall a: Sample ensures Jaccard(a, a) == 1.0 {
      assert a.tokens * a.tokens == a.tokens && a.tokens + a.tokens == a.tokens;
    }
  }

  // ------------------------------------------------------------------ the sort

  lemma {:induction false} InsertKeeps(c: Cluster, s: seq<Cluster>, env: Env)
    ensures Members(Insert(c, s)) == Members(s) + multiset(c.members) && Votes(Insert(c, s)) == Votes(s) + c.votes
    decreases |s|
  {
    if s == [] || Ahead(c, s[0]) {
      MembersFirst(c, s);
    } else {
      InsertKeeps(c, s[1..], env);
      MembersFirst(s[0], s[1..]);
      MembersFirst(s[0], Insert(c, s[1..]));
      assert s == [s[0]] + s[1..];
    }
  }

  lemma {:induction false} InsertHas(c: Cluster, s: seq<Cluster>)
    ensures forall x :: x in Insert(c, s) <==> x == c || x in s
    decreases |s|
  {
    if s != [] && !Ahead(c, s[0]) { InsertHas(c, s[1..]); }
  }

  lemma {:induction false} MembersFirst(c: Cluster, s: seq<Cluster>)
    ensures Members([c] + s) == Members(s) + multiset(c.members) && Votes([c] + s) == Votes(s) + c.votes
    decreases |s|
  {
    var all := [c] + s;
    if s == [] {
      assert all[..0] == [];
    } else {
      assert all[..|s|] == [c] + s[..|s| - 1];
      MembersFirst(c, s[..|s| - 1]);
    }
  }

  lemma {:induction false} InsertApart(c: Cluster, s: seq<Cluster>, env: Env)
    requires AllApart(s, env) && forall x :: x in s ==> Apart(c, x, env)
    ensures AllApart(Insert(c, s), env)
    decreases |s|
  {
    if s != [] && !Ahead(c, s[0]) {
      InsertApart(c, s[1..], env);
      InsertHas(c, s[1..]);
      var rest := Insert(c, s[1..]);
      assert Apart(c, s[0], env);
      forall j | 0 <= j < |rest| ensures Apart(s[0], rest[j], env) {
        assert rest[j] in rest;
        if rest[j] != c { var k :| 0 <= k < |s[1..]| && s[1..][k] == rest[j]; assert Apart(s[0], s[k + 1], env); }
      }
    }
  }

  lemma {:induction false} InsertDescends(c: Cluster, s: seq<Cluster>, env: Env)
    requires Descending(s)
    ensures Descending(Insert(c, s))
    decreases |s|
  {
    if s != [] && !Ahead(c, s[0]) {
      InsertDescends(c, s[1..], env);
      InsertHas(c, s[1..]);
      var rest := Insert(c, s[1..]);
      forall j | 0 <= j < |rest| ensures Ahead(s[0], rest[j]) {
        assert rest[j] in rest;
        if rest[j] != c { var k :| 0 <= k < |s[1..]| && s[1..][k] == rest[j]; assert Ahead(s[0], s[k + 1]); }
      }
    }
  }

  lemma {:induction false} SortedIsDescending(cs: seq<Cluster>)
    ensures Descending(Sorted(cs))
    decreases |cs|
  {
    if cs != [] {
      SortedIsDescending(cs[1..]);
      InsertDescends(cs[0], Sorted(cs[1..]), Env(0.0, (a, b) => 0.0));
    }
  }

  lemma {:induction false} SortedHas(cs: seq<Cluster>, env: Env)
    ensures Members(Sorted(cs)) == Members(cs) && Votes(Sorted(cs)) == Votes(cs)
    ensures forall x :: x in Sorted(cs) <==> x in cs
    decreases |cs|
  {
    if cs != [] {
      SortedHas(cs[1..], env);
      assert cs == [cs[0]] + cs[1..];
      MembersFirst(cs[0], cs[1..]);
      InsertKeeps(cs[0], Sorted(cs[1..]), env);
      InsertHas(cs[0], Sorted(cs[1..]));
    }
  }

  lemma {:induction false} SortedApart(cs: seq<Cluster>, env: Env)
    requires AllApart(cs, env)
    ensures AllApart(Sorted(cs), env)
    decreases |cs|
  {
    if cs != [] {
      SortedApart(cs[1..], env);
      SortedHas(cs[1..], env);
      forall x | x in cs[1..] ensures Apart(cs[0], x, env) {
        var k :| 0 <= k < |cs[1..]| && cs[1..][k] == x;
        assert Apart(cs[0], cs[k + 1], env);
      }
      InsertApart(cs[0], Sorted(cs[1..]), env);
    }
  }

  lemma SortedKeeps(cs: seq<Cluster>, samples: seq<Sample>, env: Env)
    requires Sound(cs, samples, env)
    ensures Sound(Sorted(cs), samples, env)
  {
    SortedHas(cs, env);
    SortedApart(cs, env);
  }

  // ------------------------------------------------------------------ the report

  datatype Report = Report(requested: nat, valid: nat, majorityVotes: nat, majorityRatio: real, accepted: bool)

  function Max(a: nat, b: nat): nat { if a >= b then a else b }

  /** `report_from_clusters`, as far as acceptance goes. */
  function ReportFrom(cs: seq<Cluster>, requested: nat, valid: nat, minValid: nat, minRatio: real): Report
  {
    var votes := if cs == [] then 0 else cs[0].votes;
    var ratio := votes as real / Max(requested, 1) as real;
    Report(requested, valid, votes, ratio, valid >= Max(minValid, 2) && ratio >= minRatio)
  }

  lemma {:induction false} VotesBound(cs: seq<Cluster>, i: nat, j: nat)
    requires i < j < |cs|
    ensures cs[i].votes + cs[j].votes <= Votes(cs)
    decreases |cs|
  {
    var n := |cs| - 1;
    if j < n { VotesBound(cs[..n], i, j); } else { OneBound(cs[..n], i); }
  }

  lemma {:induction false} OneBound(cs: seq<Cluster>, i: nat)
    requires i < |cs|
    ensures cs[i].votes <= Votes(cs)
    decreases |cs|
  {
    if i < |cs| - 1 { OneBound(cs[..|cs| - 1], i); }
  }

  /**
    An accepted report speaks of at least two valid samples and has a cluster with the most
    votes first; with a ratio above one half no other cluster has as many.
  */
  lemma AcceptedHasMajority(cs: seq<Cluster>, samples: seq<Sample>, requested: nat, minValid: nat, minRatio: real,
    env: Env)
    requires Sound(cs, samples, env) && Descending(cs) && |samples| <= requested
    requires ReportFrom(cs, requested, |samples|, minValid, minRatio).accepted
    ensures cs != [] && |samples| >= 2 && |samples| >= minValid
    ensures forall j :: 0 <= j < |cs| ==> cs[j].votes <= cs[0].votes
    ensures cs[0].votes as real >= minRatio * requested as real
    ensures minRatio > 0.5 ==> forall j :: 0 < j < |cs| ==> cs[j].votes < cs[0].votes
  {
    forall j | 0 < j < |cs| ensures cs[j].votes <= cs[0].votes && (minRatio > 0.5 ==> cs[j].votes < cs[0].votes) {
      assert Ahead(cs[0], cs[j]);
      VotesBound(cs, 0, j);
      if minRatio > 0.5 { HalfBound(cs[0].votes as real, requested as real, minRatio); }
    }
  }

  lemma HalfBound(v: real, n: real, r: real)
    requires n > 0.0 && v >= r * n && r > 0.5
    ensures 2.0 * v > n
  {
    assert (r - 0.5) * n > 0.0;
  }

  // ------------------------------------------------------------------ equal answers can part

  lemma GroupedNext(samples: seq<Sample>, s: Sample, env: Env)
    ensures Grouped(samples + [s], env) == Place(Grouped(samples, env), s, env)
  {
  }

  lemma PlaceBesideOne(c: Cluster, s: Sample, env: Env)
    ensures Place([c], s, env) == if env.similarity(s, c.representative) >= env.threshold then [Joined(c, s, env)]
            else [c, NewCluster(s)]
  {
  }

  lemma PlaceBesideTwo(c: Cluster, d: Cluster, s: Sample, env: Env)
    requires env.similarity(s, d.representative) >= env.similarity(s, c.representative)
    requires env.similarity(s, d.representative) >= env.threshold
    ensures Place([c, d], s, env) == [c, Joined(d, s, env)]
  {
  }

  /**
    The same answer given twice lands in two clusters whenever a representative closer to it,
    and far from the first one, comes in between.
  */
  lemma EqualAnswersPart(a: Sample, x: Sample, b: Sample, env: Env)
    requires env.similarity(b, a) < env.threshold <= env.similarity(x, a) <= env.similarity(x, b)
    ensures Grouped([a, x, b, x], env) == [Joined(NewCluster(a), x, env), Joined(NewCluster(b), x, env)]
  {
    var both := Joined(NewCluster(a), x, env);
    assert [] + [a] == [a] && [a] + [x] == [a, x] && [a, x] + [b] == [a, x, b] && [a, x, b] + [x] == [a, x, b, x];
    GroupedNext([], a, env);
    GroupedNext([a], x, env);
    PlaceBesideOne(NewCluster(a), x, env);
    GroupedNext([a, x], b, env);
    PlaceBesideOne(both, b, env);
    GroupedNext([a, x, b], x, env);
    PlaceBesideTwo(both, NewCluster(b), x, env);
  }

  /**
    Three answers of the tokens p and q; p, q and r; q and r, the middle one given twice, for any
    threshold above 1/3 and up to 2/3.
  */
  lemma EqualAnswersPartUnderJaccard(threshold: real)
    requires 1.0 / 3.0 < threshold <= 2.0 / 3.0
    ensures var a, x, b := Sample(0, {0, 1}), Sample(1, {0, 1, 2}), Sample(2, {1, 2});
            var cs := Grouped([a, x, b, x], Env(threshold, Jaccard));
            |cs| == 2 && cs[0].members == [a, x] && cs[1].members == [b, x]
  {
    var a, x, b := Sample(0, {0, 1}), Sample(1, {0, 1, 2}), Sample(2, {1, 2});
    JaccardIs(b, a, {1}, {0, 1, 2});
    JaccardIs(x, a, {0, 1}, {0, 1, 2});
    JaccardIs(x, b, {1, 2}, {0, 1, 2});
    EqualAnswersPart(a, x, b, Env(threshold, Jaccard));
  }

  lemma JaccardIs(a: Sample, b: Sample, both: set<nat>, all: set<nat>)
    requires both == a.tokens * b.tokens && all == a.tokens + b.tokens && all != {}
    ensures Jaccard(a, b) == |both| as real / |all| as real
  {
  }

  // ------------------------------------------------------------------ when equal answers stay together

  /** Where a sample goes: the best cluster if it is close enough, a new one otherwise. */
  function Home(cs: seq<Cluster>, s: Sample, env: Env): nat
  {
    if cs != [] && env.similarity(s, cs[Best(cs, s, env)].representative) >= env.threshold then Best(cs, s, env)
      else |cs|
  }

  /** It is the last member there, and no other cluster changes. */
  lemma PlaceIsHome(cs: seq<Cluster>, s: Sample, env: Env)
    ensures var h, t := Home(cs, s, env), Place(cs, s, env);
            && h < |t| && |cs| <= |t| && t[h].members != [] && t[h].members[|t[h].members| - 1] == s
            && (forall j :: 0 <= j < |cs| && j != h ==> t[j] == cs[j])
            && (forall j :: 0 <= j < |cs| ==> t[j].representative == cs[j].representative)
            && (h == |cs| ==> t == cs + [NewCluster(s)])
  {
  }

  /** Clusters are only ever added, and representatives never change. */
  ghost predicate Extends(more: seq<Cluster>, cs: seq<Cluster>)
  {
    |cs| <= |more| && forall j :: 0 <= j < |cs| ==> more[j].representative == cs[j].representative
  }

  lemma GroupedExtendsOne(cs: seq<Cluster>, samples: seq<Sample>, s: Sample, env: Env)
    requires Extends(Grouped(samples, env), cs)
    ensures Extends(Grouped(samples + [s], env), cs)
  {
    GroupedNext(samples, s, env);
    PlaceIsHome(Grouped(samples, env), s, env);
  }

  lemma {:induction false} GroupedExtends(first: seq<Sample>, rest: seq<Sample>, env: Env)
    ensures Extends(Grouped(first + rest, env), Grouped(first, env))
    decreases |rest|
  {
    if rest == [] {
      assert first + rest == first;
    } else {
      var n := |rest| - 1;
      GroupedExtends(first, rest[..n], env);
      assert first + rest == (first + rest[..n]) + [rest[n]];
      GroupedExtendsOne(Grouped(first, env), first + rest[..n], rest[n], env);
    }
  }

  /** The best of more clusters is the best of the first ones exactly if all later ones are strictly less similar. */
  lemma {:induction false} BestAmongMore(cs: seq<Cluster>, more: seq<Cluster>, s: Sample, env: Env)
    requires cs != [] && Extends(more, cs)
    ensures var b := Best(cs, s, env);
            && env.similarity(s, more[Best(more, s, env)].representative) >= env.similarity(s, cs[b].representative)
            && (Best(more, s, env) == b <==> forall j :: |cs| <= j < |more| ==>
              env.similarity(s, more[j].representative) < env.similarity(s, cs[b].representative))
    decreases |more|
  {
    var b := Best(cs, s, env);
    if |more| == |cs| {
      BestByRepresentative(cs, more, s, env);
    } else {
      var n := |more| - 1;
      BestAmongMore(cs, more[..n], s, env);
      BestIsMost(more[..n], s, env);
      assert forall j :: |cs| <= j < n ==> more[..n][j] == more[j];
    }
  }

  lemma {:induction false} BestByRepresentative(cs: seq<Cluster>, ds: seq<Cluster>, s: Sample, env: Env)
    requires cs != [] && |ds| == |cs| && Extends(ds, cs)
    ensures Best(ds, s, env) == Best(cs, s, env)
    decreases |cs|
  {
    var n := |cs| - 1;
    if n > 0 { BestByRepresentative(cs[..n], ds[..n], s, env); }
  }

  /** Right after a sample is placed, its cluster is the best one for it. */
  lemma HomeIsBest(cs: seq<Cluster>, s: Sample, env: Env)
    requires env.similarity(s, s) >= env.threshold
    ensures var t, h := Place(cs, s, env), Home(cs, s, env);
            t != [] && Best(t, s, env) == h && env.similarity(s, t[h].representative) >= env.threshold
  {
    var t, h := Place(cs, s, env), Home(cs, s, env);
    PlaceIsHome(cs, s, env);
    if h < |cs| {
      BestByRepresentative(cs, t, s, env);
    } else if cs != [] {
      BestIsMost(cs, s, env);
      assert t[..|cs|] == cs;
    }
  }

  /**
    A sample given again joins the cluster it joined first if and only if every representative
    founded in between is strictly less similar to it than that cluster's.
  */
  lemma SameClusterIff(before: seq<Sample>, s: Sample, between: seq<Sample>, env: Env)
    requires env.similarity(s, s) >= env.threshold
    ensures var h := Home(Grouped(before, env), s, env);
            var first, later := Grouped(before + [s], env), Grouped(before + [s] + between, env);
            && h < |first| && Extends(later, first)
            && (Home(later, s, env) == h <==>
                  forall j :: |first| <= j < |later| ==>
                    env.similarity(s, later[j].representative) < env.similarity(s, first[h].representative))
  {
    var first, later := Grouped(before + [s], env), Grouped(before + [s] + between, env);
    GroupedNext(before, s, env);
    PlaceIsHome(Grouped(before, env), s, env);
    HomeIsBest(Grouped(before, env), s, env);
    GroupedExtends(before + [s], between, env);
    BestAmongMore(first, later, s, env);
  }

  // ------------------------------------------------------------------ placing, means and reports in their own terms

  /** One sample founds a cluster if it is below the threshold of all, or joins the last of its most similar ones. */
  ghost predicate Settled(cs: seq<Cluster>, s: Sample, t: seq<Cluster>, env: Env)
  {
    || (t == cs + [Cluster(s, 1, [s], 1.0)]
        && forall j :: 0 <= j < |cs| ==> env.similarity(s, cs[j].representative) < env.threshold)
    || exists i :: 0 <= i < |cs| && Joins(cs, s, i, t, env)
  }

  ghost predicate Joins(cs: seq<Cluster>, s: Sample, i: nat, t: seq<Cluster>, env: Env)
    requires i < |cs|
  {
    && |t| == |cs| && (forall j :: 0 <= j < |cs| && j != i ==> t[j] == cs[j])
    && env.similarity(s, cs[i].representative) >= env.threshold
    && (forall j :: 0 <= j < i ==> env.similarity(s, cs[j].representative) <= env.similarity(s, cs[i].representative))
    && (forall j :: i < j < |cs| ==> env.similarity(s, cs[j].representative) < env.similarity(s, cs[i].representative))
    && t[i].representative == cs[i].representative && t[i].votes == cs[i].votes + 1
      && t[i].members == cs[i].members + [s]
    && IsMean(t[i].mean, |t[i].members|, Sum(t[i].members, cs[i].representative, env))
  }

  predicate IsMean(mean: real, n: nat, sum: real) { mean * n as real == sum }

  lemma MeanIs(sum: real, n: nat)
    requires n > 0
    ensures IsMean(sum / n as real, n, sum)
  {
  }

  lemma {:induction false} BestIsLast(cs: seq<Cluster>, s: Sample, env: Env)
    requires cs != []
    ensures var b := Best(cs, s, env);
            forall j :: b < j < |cs| ==>
              env.similarity(s, cs[j].representative) < env.similarity(s, cs[b].representative)
    decreases |cs|
  {
    var n := |cs| - 1;
    if n > 0 {
      BestIsLast(cs[..n], s, env);
      var b := Best(cs, s, env);
      forall j | b < j < |cs|
        ensures env.similarity(s, cs[j].representative) < env.similarity(s, cs[b].representative)
      {
        if j < n { assert cs[..n][j] == cs[j]; }
      }
    }
  }

  lemma PlaceSettles(cs: seq<Cluster>, s: Sample, env: Env)
    ensures Settled(cs, s, Place(cs, s, env), env)
  {
    if cs != [] {
      BestIsMost(cs, s, env);
      BestIsLast(cs, s, env);
      var i := Best(cs, s, env);
      if env.similarity(s, cs[i].representative) >= env.threshold {
        var sum, n := Sum(cs[i].members + [s], cs[i].representative, env), |cs[i].members| + 1;
        MeanIs(sum, n);
        assert Joins(cs, s, i, Place(cs, s, env), env);
      }
    }
  }

  /** A sum has one summand for each member. */
  lemma {:induction false} SumAdds(ms: seq<Sample>, more: seq<Sample>, rep: Sample, env: Env)
    ensures Sum(ms + more, rep, env) == Sum(ms, rep, env) + Sum(more, rep, env)
    ensures forall x :: Sum([x], rep, env) == env.similarity(x, rep)
    decreases |more|
  {
    forall x ensures Sum([x], rep, env) == env.similarity(x, rep) { assert [x][..0] == []; }
    if more == [] {
      assert ms + more == ms;
    } else {
      var n := |more| - 1;
      SumAdds(ms, more[..n], rep, env);
      assert (ms + more)[..|ms| + n] == ms + more[..n];
    }
  }

  /** Every cluster of two or more states the mean similarity of its members to the first of them. */
  ghost predicate MeanHolds(c: Cluster, env: Env)
  {
    if |c.members| <= 1 then c.mean == 1.0
    else IsMean(c.mean, |c.members|, Sum(c.members, c.representative, env))
  }

  lemma MeansHold(samples: seq<Sample>, env: Env)
    ensures forall c :: c in Sorted(Grouped(samples, env)) ==> MeanHolds(c, env)
  {
    var cs := Grouped(samples, env);
    GroupedMeans(samples, env);
    SortedHas(cs, env);
    forall c | c in cs ensures MeanHolds(c, env) { var j :| 0 <= j < |cs| && cs[j] == c; }
  }

  ghost predicate AllMeans(cs: seq<Cluster>, env: Env) { forall j :: 0 <= j < |cs| ==> MeanHolds(cs[j], env) }

  lemma PlaceMeans(cs: seq<Cluster>, s: Sample, env: Env)
    requires AllMeans(cs, env) && forall j :: 0 <= j < |cs| ==> cs[j].members != []
    ensures AllMeans(Place(cs, s, env), env)
  {
    PlaceSettles(cs, s, env);
    var t := Place(cs, s, env);
    forall j | 0 <= j < |t| ensures MeanHolds(t[j], env) {
      if j < |cs| { assert MeanHolds(cs[j], env); }
    }
  }

  lemma {:induction false} GroupedMeans(samples: seq<Sample>, env: Env)
    ensures AllMeans(Grouped(samples, env), env)
    decreases |samples|
  {
    if samples != [] {
      var n := |samples| - 1;
      var cs := Grouped(samples[..n], env);
      GroupedMeans(samples[..n], env);
      GroupedIsSound(samples[..n], env);
      forall j | 0 <= j < |cs| ensures cs[j].members != [] { assert cs[j] in cs && WellFormed(cs[j], env); }
      PlaceMeans(cs, samples[n], env);
    }
  }

  /** Intersection over union, and one for two answers without tokens. */
  lemma JaccardRatio(a: Sample, b: Sample)
    ensures a.tokens == {} && b.tokens == {} ==> Jaccard(a, b) == 1.0
    ensures a.tokens != {} || b.tokens != {} ==>
              Jaccard(a, b) * |a.tokens + b.tokens| as real == |a.tokens * b.tokens| as real
  {
    if a.tokens != {} || b.tokens != {} {
      var x :| x in a.tokens + b.tokens;
      assert |a.tokens + b.tokens| > 0;
    }
  }

  /** The clusters of one count and mean, in order. */
  function Alike(cs: seq<Cluster>, votes: nat, mean: real): seq<Cluster>
  {
    if cs == [] then []
    else (if cs[0].votes == votes && cs[0].mean == mean then [cs[0]] else []) + Alike(cs[1..], votes, mean)
  }

  lemma {:induction false} InsertIsStable(c: Cluster, s: seq<Cluster>, votes: nat, mean: real)
    ensures Alike(Insert(c, s), votes, mean) == Alike([c] + s, votes, mean)
    decreases |s|
  {
    if s != [] && !Ahead(c, s[0]) { InsertIsStable(c, s[1..], votes, mean); }
  }

  /** The sort is stable. */
  lemma {:induction false} SortedIsStable(cs: seq<Cluster>, votes: nat, mean: real)
    ensures Alike(Sorted(cs), votes, mean) == Alike(cs, votes, mean)
    decreases |cs|
  {
    if cs != [] {
      SortedIsStable(cs[1..], votes, mean);
      InsertIsStable(cs[0], Sorted(cs[1..]), votes, mean);
    }
  }

  /** A report accepts exactly if two samples and the least number are valid and the first cluster holds the ratio. */
  lemma ReportIs(cs: seq<Cluster>, requested: nat, valid: nat, minValid: nat, minRatio: real)
    ensures var r := ReportFrom(cs, requested, valid, minValid, minRatio);
            var votes := if cs == [] then 0 else cs[0].votes;
            var asked := if requested == 0 then 1.0 else requested as real;
            && r.requested == requested && r.valid == valid && r.majorityVotes == votes
            && r.majorityRatio * asked == votes as real
            && (r.accepted <==> valid >= 2 && valid >= minValid && votes as real >= minRatio * asked)
  {
    var votes := if cs == [] then 0 else cs[0].votes;
    RatioAtLeast(votes as real, if requested == 0 then 1.0 else requested as real, minRatio);
  }

  lemma RatioAtLeast(v: real, n: real, r: real)
    requires n > 0.0
    ensures v / n * n == v && (v / n >= r <==> v >= r * n)
  {
    if v / n >= r { assert (v / n - r) * n >= 0.0; } else { assert (r - v / n) * n > 0.0; }
  }
}
