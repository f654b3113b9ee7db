/**
  Repairing contradictions: a plan over pairs of valid claims, and its application, which
  closes the weaker claim of a pair with a link to the stronger.  `f32` is read as `real`.
*/
module Guardian {
  import opened Prelude

  datatype Uri = Uri(id: nat)

  /** `reason` is the task whose words the record carries. */
  datatype Validity = Validity(
    validFrom: int,
    validUntil: Option<int>,
    invalidatedBy: Option<Uri>,
    reason: Option<Task>)

  datatype Tag = AutoInvalidated | Revalidate | ContextualConflict | Other(id: nat)

  datatype Entry = Entry(
    uri: Uri,
    claim: bool,                    // an epistemic claim by its content type
    kind: nat,
    text: string,
    quality: Option<real>,
    evidence: Option<seq<Uri>>,     // None without consolidation metadata
    createdAt: int,
    validity: Option<Validity>,
    tags: seq<Tag>,
    note: Option<Task>)             // the custom field of the guard

  datatype Action = RevalidateBoth | InvalidateWeaker | KeepBothContextual

  datatype Task = Task(a: Uri, b: Uri, action: Action, priority: real)

  datatype Env = Env(
    maxPairs: nat,
    overlapThreshold: real,
    delta: real,
    autoInvalidate: bool,
    overlap: (string, string) -> real,
    contradicts: (string, string) -> bool)

  function Clamp(x: real): (r: real)
    ensures 0.0 <= r <= 1.0
  {
    if x < 0.0 then 0.0 else if x > 1.0 then 1.0 else x
  }

  function Raw(e: Entry): real { if e.quality.Some? then e.quality.value else 0.5 }

  function Quality(e: Entry): (r: real)
    ensures 0.0 <= r <= 1.0
  {
    Clamp(Raw(e))
  }

  function Abs(x: real): real { if x < 0.0 then -x else x }

  // ------------------------------------------------------------------ the plan

  predicate CurrentlyValid(e: Entry, now: int)
  {
    e.validity.None? || e.validity.value.validUntil.None? || e.validity.value.validUntil.value > now
  }

  function Candidates(es: seq<Entry>, now: int): (r: seq<Entry>)
    ensures forall e :: e in r ==> e in es
  {
    if es == [] then []
    else
      var n := |es| - 1;
      Candidates(es[..n], now) + if es[n].claim && CurrentlyValid(es[n], now) then [es[n]] else []
  }

  predicate SharesEvidence(a: Entry, b: Entry)
  {
    a.evidence.Some? && b.evidence.Some? && exists u :: u in a.evidence.value && u in b.evidence.value
  }

  /** What the plan says about one pair. */
  function Judge(a: Entry, b: Entry, env: Env): seq<Task>
  {
    var overlap := env.overlap(a.text, b.text);
    if a.kind != b.kind || overlap < env.overlapThreshold || !env.contradicts(a.text, b.text) then []
    else
      var delta := Abs(Quality(a) - Quality(b));
      var action :=
        if env.autoInvalidate && delta >= env.delta then InvalidateWeaker
        else if SharesEvidence(a, b) then RevalidateBoth
        else KeepBothContextual;
      [Task(a.uri, b.uri, action, Clamp(overlap * 0.6 + delta * 0.4))]
  }

  /** What the loops find from the pair `(i, j)` on, with `left` pairs still allowed. */
  function Found(c: seq<Entry>, i: nat, j: nat, left: nat, env: Env): seq<Task>
    requires i < j
    decreases |c| - i, |c| - j
  {
    if i >= |c| || left == 0 then []
    else if j >= |c| then Found(c, i + 1, i + 2, left, env)
    else Judge(c[i], c[j], env) + Found(c, i, j + 1, left - 1, env)
  }

  function InsertTask(t: Task, sorted: seq<Task>): seq<Task>
  {
    if sorted == [] || t.priority >= sorted[0].priority then [t] + sorted else [sorted[0]] + InsertTask(t, sorted[1..])
  }

  /** A stable sort by decreasing priority. */
  function Sorted(ts: seq<Task>): seq<Task> { if ts == [] then [] else InsertTask(ts[0], Sorted(ts[1..])) }

  lemma {:induction false} InsertKeeps(t: Task, s: seq<Task>)
    ensures multiset(InsertTask(t, s)) == multiset(s) + multiset{t}
    decreases |s|
  {
    if s != [] && t.priority < s[0].priority {
      InsertKeeps(t, s[1..]);
      assert s == [s[0]] + s[1..];
    }
  }

  lemma {:induction false} SortedKeeps(ts: seq<Task>)
    ensures multiset(Sorted(ts)) == multiset(ts)
    decreases |ts|
  {
    if ts != [] {
      SortedKeeps(ts[1..]);
      InsertKeeps(ts[0], Sorted(ts[1..]));
      assert ts == [ts[0]] + ts[1..];
    }
  }

  function PlanOf(c: seq<Entry>, env: Env): seq<Task> { Sorted(Found(c, 0, 1, env.maxPairs, env)) }

  /** `plan`. */
  method Plan(es: seq<Entry>, now: int, env: Env) returns (tasks: seq<Task>)
    ensures tasks == PlanOf(Candidates(es, now), env)
    ensures (forall t :: t in tasks ==> Due(t, es, now, env)) && Descends(tasks)
    ensures 2 * env.maxPairs >= |es| * (|es| - 1) ==> AllDue(tasks, es, now, env)
  {
    var found := FindPairs(Candidates(es, now), env);
    tasks := Sorted(found);
    PlanIsDue(es, now, env);
  }

  /** The nested loops over all pairs, with their early exit. */
  method FindPairs(c: seq<Entry>, env: Env) returns (r: seq<Task>)
    ensures r == Found(c, 0, 1, env.maxPairs, env)
  {
    var found: seq<Task> := [];
    var checked := 0;
    var full := false;
    var i := 0;
    while i < |c| && !full
      invariant 0 <= i && checked <= env.maxPairs && (full ==> checked == env.maxPairs)
      invariant Found(c, 0, 1, env.maxPairs, env) == found + Found(c, i, i + 1, env.maxPairs - checked, env)
      decreases |c| - i, !full
    {
      var j := i + 1;
      while j < |c|
        invariant i < j <= |c| && checked <= env.maxPairs && !full
        invariant Found(c, 0, 1, env.maxPairs, env) == found + Found(c, i, j, env.maxPairs - checked, env)
      {
        if checked >= env.maxPairs { full := true; break; }
        checked := checked + 1;
        found := found + Judge(c[i], c[j], env);
        j := j + 1;
      }
      if !full { i := i + 1; }
    }
    assert Found(c, i, i + 1, env.maxPairs - checked, env) == [] && found + [] == found;
    r := found;
  }

  /** How many pairs of `n` claims there are from `(i, j)` on. */
  function PairsFrom(i: nat, j: nat, n: nat): nat
    requires i < j
    decreases n - i, n - j
  {
    if i >= n then 0 else if j >= n then PairsFrom(i + 1, i + 2, n) else 1 + PairsFrom(i, j + 1, n)
  }

  lemma {:induction false} PairsAre(i: nat, j: nat, n: nat)
    requires i < j <= n
    ensures 2 * PairsFrom(i, j, n) == 2 * (n - j) + (n - i - 1) * (n - i - 2)
    decreases n - i, n - j
  {
    if j < n {
      PairsAre(i, j + 1, n);
    } else if i + 2 <= n {
      PairsAre(i + 1, i + 2, n);
      assert (n - i - 1) * (n - i - 2) == 2 * (n - i - 2) + (n - i - 2) * (n - i - 3);
    } else {
      assert PairsFrom(i + 1, i + 2, n) == 0;
    }
  }

  lemma {:induction false} FoundHas(c: seq<Entry>, i: nat, j: nat, left: nat, t: Task, env: Env)
    requires i < j
    ensures t in Found(c, i, j, left, env) ==> exists a, b :: 0 <= a < b < |c| && t in Judge(c[a], c[b], env)
    decreases |c| - i, |c| - j
  {
    if i < |c| && left > 0 {
      if j >= |c| { FoundHas(c, i + 1, i + 2, left, t, env); } else { FoundHas(c, i, j + 1, left - 1, t, env); }
    }
  }

  lemma {:induction false} FoundAll(c: seq<Entry>, i: nat, j: nat, left: nat, a: nat, b: nat, t: Task, env: Env)
    requires i < j && left >= PairsFrom(i, j, |c|)
    requires a < b < |c| && (a > i || (a == i && b >= j)) && t in Judge(c[a], c[b], env)
    ensures t in Found(c, i, j, left, env)
    decreases |c| - i, |c| - j
  {
    if j >= |c| {
      FoundAll(c, i + 1, i + 2, left, a, b, t, env);
    } else if !(a == i && b == j) {
      FoundAll(c, i, j + 1, left - 1, a, b, t, env);
    }
  }

  /** `(a, b)` is one of the first `left` pairs from `(i, j)` on, in the order of the loops. */
  predicate Reached(n: nat, i: nat, j: nat, left: nat, a: nat, b: nat)
    requires i < j && a < b
  {
    b < n && (a > i || (a == i && b >= j)) && PairsFrom(i, j, n) < left + PairsFrom(a, b, n)
  }

  ghost predicate AmongFirst(c: seq<Entry>, i: nat, j: nat, left: nat, t: Task, env: Env)
    requires i < j
  {
    exists a: nat, b: nat :: a < b && Reached(|c|, i, j, left, a, b) && t in Judge(c[a], c[b], env)
  }

  /** However little room there is, exactly the first pairs are looked at. */
  lemma {:induction false} FoundIff(c: seq<Entry>, i: nat, j: nat, left: nat, t: Task, env: Env)
    requires i < j
    ensures t in Found(c, i, j, left, env) <==> AmongFirst(c, i, j, left, t, env)
    decreases |c| - i, |c| - j
  {
    if i >= |c| || left == 0 {
      NoneReached(|c|, i, j, left);
    } else if j >= |c| {
      FoundIff(c, i + 1, i + 2, left, t, env);
      NextRow(c, i, j, left, t, env);
    } else {
      FoundIff(c, i, j + 1, left - 1, t, env);
      NextPair(c, i, j, left, t, env);
    }
  }

  lemma NextRow(c: seq<Entry>, i: nat, j: nat, left: nat, t: Task, env: Env)
    requires i < j && j >= |c| > i
    ensures AmongFirst(c, i, j, left, t, env) <==> AmongFirst(c, i + 1, i + 2, left, t, env)
  {
    forall a: nat, b: nat | a < b
      ensures Reached(|c|, i, j, left, a, b) <==> Reached(|c|, i + 1, i + 2, left, a, b)
    {
    }
  }

  lemma NextPair(c: seq<Entry>, i: nat, j: nat, left: nat, t: Task, env: Env)
    requires i < j < |c| && left > 0
    ensures AmongFirst(c, i, j, left, t, env) <==>
            t in Judge(c[i], c[j], env) || AmongFirst(c, i, j + 1, left - 1, t, env)
  {
    forall a: nat, b: nat | a < b
      ensures Reached(|c|, i, j, left, a, b) <==> (a == i && b == j) || Reached(|c|, i, j + 1, left - 1, a, b)
    {
    }
  }

  lemma NoneReached(n: nat, i: nat, j: nat, left: nat)
    requires i < j && (i >= n || left == 0)
    ensures forall a: nat, b: nat :: a < b ==> !Reached(n, i, j, left, a, b)
  {
    forall a: nat, b: nat | a < b && b < n && (a > i || (a == i && b >= j)) && left == 0
      ensures PairsFrom(i, j, n) >= PairsFrom(a, b, n)
    {
      PairsShrink(n, i, j, a, b);
    }
  }

  lemma {:induction false} PairsShrink(n: nat, i: nat, j: nat, a: nat, b: nat)
    requires i < j && a < b < n && (a > i || (a == i && b >= j))
    ensures PairsFrom(i, j, n) >= PairsFrom(a, b, n)
    decreases n - i, n - j
  {
    if !(a == i && b == j) {
      if j >= n { PairsShrink(n, i + 1, i + 2, a, b); } else { PairsShrink(n, i, j + 1, a, b); }
    }
  }

  /**
    The plan holds tasks for pairs of claims only and, with room for all n (n - 1) / 2 pairs, for
    every contradicting pair.
  */
  lemma PlanHas(c: seq<Entry>, t: Task, env: Env)
    ensures t in PlanOf(c, env) ==> exists i, j :: 0 <= i < j < |c| && t in Judge(c[i], c[j], env)
    ensures 2 * env.maxPairs >= |c| * (|c| - 1) ==>
              (t in PlanOf(c, env) <==> exists i, j :: 0 <= i < j < |c| && t in Judge(c[i], c[j], env))
  {
    SortedKeeps(Found(c, 0, 1, env.maxPairs, env));
    assert t in PlanOf(c, env) <==> t in multiset(PlanOf(c, env));
    FoundHas(c, 0, 1, env.maxPairs, t, env);
    if i, j :| 0 <= i < j < |c| && t in Judge(c[i], c[j], env) {
      if 2 * env.maxPairs >= |c| * (|c| - 1) {
        PairsAre(0, 1, |c|);
        assert 2 * (|c| - 1) + (|c| - 1) * (|c| - 2) == |c| * (|c| - 1);
        FoundAll(c, 0, 1, env.maxPairs, i, j, t, env);
      }
    }
  }

  // ------------------------------------------------------------------ which pairs

  ghost predicate Holds(e: Entry, now: int)
  {
    e.claim && (e.validity == None || e.validity.value.validUntil == None || e.validity.value.validUntil.value > now)
  }

  /** Two claims, in the order they are listed, that hold now, are of one kind, overlap enough and contradict. */
  ghost predicate Clash(es: seq<Entry>, i: int, j: int, now: int, env: Env)
  {
    && 0 <= i < j < |es| && Holds(es[i], now) && Holds(es[j], now) && es[i].kind == es[j].kind
    && env.overlap(es[i].text, es[j].text) >= env.overlapThreshold && env.contradicts(es[i].text, es[j].text)
  }

  /** How far two qualities are apart, each 0.5 unless it is known, and no less than 0 and no more than 1. */
  function Distance(a: Entry, b: Entry): real
  {
    var of := (e: Entry) => if e.quality == None then 0.5 else if e.quality.value < 0.0 then 0.0
                            else if e.quality.value > 1.0 then 1.0 else e.quality.value;
    if of(a) <= of(b) then of(b) - of(a) else of(a) - of(b)
  }

  ghost predicate CommonEvidence(a: Entry, b: Entry)
  {
    a.evidence != None && b.evidence != None && exists u :: u in a.evidence.value && u in b.evidence.value
  }

  /**
    The task for a pair: the weaker is closed if that is wanted and clear, else both are checked again
    if they share evidence.
  */
  ghost predicate Settles(t: Task, a: Entry, b: Entry, env: Env)
  {
    var p := 0.6 * env.overlap(a.text, b.text) + 0.4 * Distance(a, b);
    && t.a == a.uri && t.b == b.uri
    && (t.action == InvalidateWeaker <==> env.autoInvalidate && Distance(a, b) >= env.delta)
    && (t.action == RevalidateBoth <==> !(env.autoInvalidate && Distance(a, b) >= env.delta) && CommonEvidence(a, b))
    && t.priority == if p < 0.0 then 0.0 else if p > 1.0 then 1.0 else p
  }

  lemma DistanceIs(a: Entry, b: Entry)
    ensures Distance(a, b) == Abs(Quality(a) - Quality(b))
  {
  }

  lemma JudgeSettles(a: Entry, b: Entry, env: Env)
    ensures if a.kind == b.kind && env.overlap(a.text, b.text) >= env.overlapThreshold
            && env.contradicts(a.text, b.text)
            then |Judge(a, b, env)| == 1 && Settles(Judge(a, b, env)[0], a, b, env)
            else Judge(a, b, env) == []
  {
    DistanceIs(a, b);
    Commutes(env.overlap(a.text, b.text), Distance(a, b));
    assert SharesEvidence(a, b) <==> CommonEvidence(a, b);
  }

  lemma Commutes(x: real, y: real)
    ensures x * 0.6 + y * 0.4 == 0.6 * x + 0.4 * y
  {
  }

  // ------------------------------------------------------------------ candidates

  lemma {:induction false} CandidatesHold(es: seq<Entry>, now: int)
    ensures forall e :: e in Candidates(es, now) ==> Holds(e, now)
    ensures |Candidates(es, now)| <= |es|
    decreases |es|
  {
    if es != [] { CandidatesHold(es[..|es| - 1], now); }
  }

  /** Where an entry that holds stands among the candidates, and two of them in their order. */
  lemma {:induction false} CandidateOf(es: seq<Entry>, now: int, i: nat, j: nat) returns (x: nat, y: nat)
    requires i < j < |es| && Holds(es[i], now) && Holds(es[j], now)
    ensures x < y < |Candidates(es, now)| && Candidates(es, now)[x] == es[i] && Candidates(es, now)[y] == es[j]
    decreases |es|
  {
    var n := |es| - 1;
    var before := Candidates(es[..n], now);
    if j < n {
      x, y := CandidateOf(es[..n], now, i, j);
    } else {
      x := OneCandidate(es[..n], now, i);
      y := |before|;
    }
  }

  lemma {:induction false} OneCandidate(es: seq<Entry>, now: int, i: nat) returns (x: nat)
    requires i < |es| && Holds(es[i], now)
    ensures x < |Candidates(es, now)| && Candidates(es, now)[x] == es[i]
    decreases |es|
  {
    var n := |es| - 1;
    if i < n { x := OneCandidate(es[..n], now, i); } else { x := |Candidates(es[..n], now)|; }
  }

  // ------------------------------------------------------------------ the plan

  /** `t` settles a pair of the entries that clash. */
  ghost predicate Due(t: Task, es: seq<Entry>, now: int, env: Env)
  {
    exists i, j :: Clash(es, i, j, now, env) && Settles(t, es[i], es[j], env)
  }

  /** Every task settles a pair that clashes. */
  lemma PlannedIsDue(es: seq<Entry>, now: int, t: Task, env: Env)
    requires t in PlanOf(Candidates(es, now), env)
    ensures Due(t, es, now, env)
  {
    var c := Candidates(es, now);
    PlanHas(c, t, env);
    var i, j :| 0 <= i < j < |c| && t in Judge(c[i], c[j], env);
    var x, y := CandidateIndex(es, now, i, j);
    CandidatesHold(es, now);
    assert c[i] in c && c[j] in c;
    JudgeSettles(c[i], c[j], env);
    assert Clash(es, x, y, now, env);
  }

  /** With room for every pair, every pair that clashes has its task. */
  lemma DueIsPlanned(es: seq<Entry>, now: int, i: nat, j: nat, env: Env)
    requires Clash(es, i, j, now, env) && 2 * env.maxPairs >= |es| * (|es| - 1)
    ensures exists t :: t in PlanOf(Candidates(es, now), env) && Settles(t, es[i], es[j], env)
  {
    var c := Candidates(es, now);
    var x, y := CandidateOf(es, now, i, j);
    JudgeSettles(c[x], c[y], env);
    var t := Judge(c[x], c[y], env)[0];
    CandidatesHold(es, now);
    FewerPairs(|c|, |es|);
    PlanHas(c, t, env);
  }

  lemma FewerPairs(m: nat, n: nat)
    requires 0 < m <= n
    ensures m * (m - 1) <= n * (n - 1)
  {
  }

  /** The likeliest repairs come first. */
  ghost predicate Descends(ts: seq<Task>)
  {
    forall i, j :: 0 <= i < j < |ts| ==> ts[i].priority >= ts[j].priority
  }

  lemma {:induction false} InsertDescends(t: Task, s: seq<Task>)
    requires Descends(s)
    ensures Descends(InsertTask(t, s))
    ensures s != [] ==> InsertTask(t, s)[0] == t || InsertTask(t, s)[0] == s[0]
    decreases |s|
  {
    if s != [] && t.priority < s[0].priority {
      InsertDescends(t, s[1..]);
      var rest := InsertTask(t, s[1..]);
      forall i, j | 0 <= i < j < |rest| + 1 ensures ([s[0]] + rest)[i].priority >= ([s[0]] + rest)[j].priority {
        if i == 0 && j > 1 { assert rest[0].priority >= rest[j - 1].priority; }
      }
    }
  }

  lemma {:induction false} PlanDescends(c: seq<Task>)
    ensures Descends(Sorted(c))
    decreases |c|
  {
    if c != [] {
      PlanDescends(c[1..]);
      InsertDescends(c[0], Sorted(c[1..]));
    }
  }

  function Equals(ts: seq<Task>, p: real): seq<Task>
  {
    if ts == [] then [] else (if ts[0].priority == p then [ts[0]] else []) + Equals(ts[1..], p)
  }

  lemma {:induction false} InsertIsStable(t: Task, s: seq<Task>, p: real)
    requires Descends(s)
    ensures Equals(InsertTask(t, s), p) == (if t.priority == p then [t] else []) + Equals(s, p)
    decreases |s|
  {
    if s != [] && t.priority < s[0].priority {
      InsertIsStable(t, s[1..], p);
      if t.priority == p { NoneEqual(s, p); }
    }
  }

  lemma NoneEqual(s: seq<Task>, p: real)
    requires s != [] && s[0].priority != p
    ensures Equals(s, p) == Equals(s[1..], p)
  {
  }

  /** Tasks of one priority keep the order in which they were found. */
  lemma {:induction false} PlanIsStable(ts: seq<Task>, p: real)
    ensures Equals(Sorted(ts), p) == Equals(ts, p)
    decreases |ts|
  {
    if ts != [] {
      PlanIsStable(ts[1..], p);
      PlanDescends(ts[1..]);
      InsertIsStable(ts[0], Sorted(ts[1..]), p);
    }
  }

  lemma PlanIsDue(es: seq<Entry>, now: int, env: Env)
    ensures var tasks := PlanOf(Candidates(es, now), env);
            && (forall t :: t in tasks ==> Due(t, es, now, env)) && Descends(tasks)
            && (2 * env.maxPairs >= |es| * (|es| - 1) ==> AllDue(tasks, es, now, env))
  {
    var c := Candidates(es, now);
    var tasks := PlanOf(c, env);
    forall t | t in tasks ensures Due(t, es, now, env) { PlannedIsDue(es, now, t, env); }
    PlanDescends(Found(c, 0, 1, env.maxPairs, env));
    if 2 * env.maxPairs >= |es| * (|es| - 1) {
      forall i, j | Clash(es, i, j, now, env) ensures Settled(tasks, es, i, j, env) {
        DueIsPlanned(es, now, i, j, env);
      }
    }
  }

  ghost predicate Settled(tasks: seq<Task>, es: seq<Entry>, i: int, j: int, env: Env)
    requires 0 <= i < |es| && 0 <= j < |es|
  {
    exists t :: t in tasks && Settles(t, es[i], es[j], env)
  }

  ghost predicate AllDue(tasks: seq<Task>, es: seq<Entry>, now: int, env: Env)
  {
    forall i, j :: Clash(es, i, j, now, env) ==> Settled(tasks, es, i, j, env)
  }


  // ------------------------------------------------------------------ applying a plan

  /** `by_uri`: the last entry with that URI. */
  function IndexOf(es: seq<Entry>, u: Uri): (r: Option<nat>)
    ensures r.Some? ==> r.value < |es| && es[r.value].uri == u
    ensures r.None? ==> forall i :: 0 <= i < |es| ==> es[i].uri != u
  {
    if es == [] then None
    else
      var n := |es| - 1;
      if es[n].uri == u then Some(n) else IndexOf(es[..n], u)
  }

  /** `push_tag` and `set_custom_field`. */
  function Marked(e: Entry, tag: Tag, t: Task): Entry
  {
    e.(tags := if tag in e.tags then e.tags else e.tags + [tag], note := Some(t))
  }

  function Closed(e: Entry, better: Uri, t: Task, now: int): Entry
  {
    Marked(e.(validity := Some(Validity(e.createdAt, Some(now), Some(better), Some(t)))), AutoInvalidated, t)
  }

  function ApplyTask(es: seq<Entry>, t: Task, now: int): (r: seq<Entry>)
    ensures |r| == |es|
  {
    var ia, ib := IndexOf(es, t.a), IndexOf(es, t.b);
    if ia.None? || ib.None? then es
    else if t.action.InvalidateWeaker? then
      if Raw(es[ia.value]) <= Raw(es[ib.value]) then es[ia.value := Closed(es[ia.value], t.b, t, now)]
      else es[ib.value := Closed(es[ib.value], t.a, t, now)]
    else
      var tag := if t.action.RevalidateBoth? then Revalidate else ContextualConflict;
      var once := es[ia.value := Marked(es[ia.value], tag, t)];
      once[ib.value := Marked(once[ib.value], tag, t)]
  }

  /** A closed claim ends now, points to the better one, and says why; what it is and since when stays. */
  lemma ClosedIs(e: Entry, better: Uri, t: Task, now: int)
    ensures var c := Closed(e, better, t, now);
            && c == e.(validity := c.validity, tags := c.tags, note := Some(t))
            && c.validity == Some(Validity(e.createdAt, Some(now), Some(better), Some(t)))
            && e.tags <= c.tags && AutoInvalidated in c.tags && |c.tags| <= |e.tags| + 1
  {
  }

  /** Of two claims of one quality the first is closed; otherwise the one of lower quality. */
  lemma WeakerIsClosed(es: seq<Entry>, t: Task, now: int)
    requires IndexOf(es, t.a).Some? && IndexOf(es, t.b).Some? && t.action == InvalidateWeaker
    ensures var i, j := IndexOf(es, t.a).value, IndexOf(es, t.b).value;
            ApplyTask(es, t, now) == if Raw(es[j]) < Raw(es[i]) then es[j := Closed(es[j], t.a, t, now)]
                                     else es[i := Closed(es[i], t.b, t, now)]
  {
  }

  function ApplyAll(es: seq<Entry>, ts: seq<Task>, now: int): (r: seq<Entry>)
    ensures |r| == |es|
  {
    if ts == [] then es else ApplyTask(ApplyAll(es, ts[..|ts| - 1], now), ts[|ts| - 1], now)
  }

  /** The entries a task speaks to. */
  function Spoken(es: seq<Entry>, t: Task): set<nat>
  {
    var ia, ib := IndexOf(es, t.a), IndexOf(es, t.b);
    if ia.None? || ib.None? then {}
    else if !t.action.InvalidateWeaker? then {ia.value, ib.value}
    else if Raw(es[ia.value]) <= Raw(es[ib.value]) then {ia.value}
    else {ib.value}
  }

  function Touched(es: seq<Entry>, ts: seq<Task>): set<nat>
  {
    if ts == [] then {} else Touched(es, ts[..|ts| - 1]) + Spoken(es, ts[|ts| - 1])
  }

  /** One task, in place. */
  method ApplyOne(es: array<Entry>, t: Task, now: int) returns (spoken: set<nat>)
    modifies es
    ensures es[..] == ApplyTask(old(es[..]), t, now)
    ensures spoken == Spoken(old(es[..]), t)
  {
    var ia, ib := IndexOf(es[..], t.a), IndexOf(es[..], t.b);
    if ia.None? || ib.None? { return {}; }
    var a, b := ia.value, ib.value;
    if t.action.InvalidateWeaker? {
      var weaker := if Raw(es[a]) <= Raw(es[b]) then a else b;
      var stronger := if weaker == a then t.b else t.a;
      es[weaker] := Closed(es[weaker], stronger, t, now);
      spoken := {weaker};
    } else {
      var tag := if t.action.RevalidateBoth? then Revalidate else ContextualConflict;
      es[a] := Marked(es[a], tag, t);
      es[b] := Marked(es[b], tag, t);
      spoken := {a, b};
    }
  }

  /** `apply`, in place. */
  method Apply(es: array<Entry>, tasks: seq<Task>, now: int) returns (touched: nat)
    modifies es
    ensures es[..] == ApplyAll(old(es[..]), tasks, now)
    ensures touched == |Touched(old(es[..]), tasks)|
  {
    ghost var before := es[..];
    var seen: set<nat> := {};
    for k := 0 to |tasks|
      invariant es[..] == ApplyAll(before, tasks[..k], now)
      invariant OnlyRepaired(before, es[..])
      invariant seen == Touched(before, tasks[..k])
    {
      assert tasks[..k + 1][..k] == tasks[..k];
      SpokenStays(before, es[..], tasks[k], now);
      var spoken := ApplyOne(es, tasks[k], now);
      seen := seen + spoken;
    }
    assert tasks[..|tasks|] == tasks;
    touched := |seen|;
  }

  /** Nothing but validities, tags and notes differs. */
  ghost predicate OnlyRepaired(a: seq<Entry>, b: seq<Entry>)
  {
    && |a| == |b|
    && forall i :: 0 <= i < |a| ==>
         b[i] == a[i].(validity := b[i].validity, tags := b[i].tags, note := b[i].note)
  }

  lemma {:induction false} SameIndex(a: seq<Entry>, b: seq<Entry>, u: Uri)
    requires OnlyRepaired(a, b)
    ensures IndexOf(a, u) == IndexOf(b, u)
    decreases |a|
  {
    if a != [] { SameIndex(a[..|a| - 1], b[..|b| - 1], u); }
  }

  /** Entries no task speaks to stay as they were, the others carry the last task that did. */
  lemma {:induction false} TouchedAreNoted(es: seq<Entry>, ts: seq<Task>, now: int, i: nat)
    requires i < |es|
    ensures OnlyRepaired(es, ApplyAll(es, ts, now))
    ensures i in Touched(es, ts) <==> LastNote(es, ts, i).Some?
    ensures i in Touched(es, ts) ==> ApplyAll(es, ts, now)[i].note == LastNote(es, ts, i)
    ensures i !in Touched(es, ts) ==> ApplyAll(es, ts, now)[i] == es[i]
    decreases |ts|
  {
    if ts != [] {
      var n := |ts| - 1;
      TouchedAreNoted(es, ts[..n], now, i);
      SpokenStays(es, ApplyAll(es, ts[..n], now), ts[n], now);
      OneNoted(ApplyAll(es, ts[..n], now), ts[n], now, i);
    }
  }

  lemma OneNoted(before: seq<Entry>, t: Task, now: int, i: nat)
    requires i < |before|
    ensures ApplyTask(before, t, now)[i].note == if i in Spoken(before, t) then Some(t) else before[i].note
    ensures i !in Spoken(before, t) ==> ApplyTask(before, t, now)[i] == before[i]
  {
  }

  /** The last task that speaks to entry `i`. */
  function LastNote(es: seq<Entry>, ts: seq<Task>, i: nat): Option<Task>
  {
    if ts == [] then None
    else
      var n := |ts| - 1;
      if i in Spoken(es, ts[n]) then Some(ts[n]) else LastNote(es, ts[..n], i)
  }

  /** A repair moves nothing a task looks at. */
  lemma SpokenStays(es: seq<Entry>, before: seq<Entry>, t: Task, now: int)
    requires OnlyRepaired(es, before)
    ensures Spoken(before, t) == Spoken(es, t) && OnlyRepaired(es, ApplyTask(before, t, now))
  {
    SameIndex(es, before, t.a);
    SameIndex(es, before, t.b);
  }

  // ------------------------------------------------------------------ links go to better claims

  ghost predicate DistinctUris(es: seq<Entry>) { forall i, j :: 0 <= i < j < |es| ==> es[i].uri != es[j].uri }

  /** `s` beats `w`: better by `delta` once clamped, and better unclamped or, on a tie, listed later. */
  ghost predicate Beats(es: seq<Entry>, s: nat, w: nat, env: Env)
    requires s < |es| && w < |es|
  {
    && Quality(es[s]) >= Quality(es[w]) + env.delta
    && (Raw(es[w]) < Raw(es[s]) || (Raw(es[w]) == Raw(es[s]) && w < s))
  }

  /** The application closed `w` with a link to `s`. */
  ghost predicate Linked(es: seq<Entry>, after: seq<Entry>, w: nat, s: nat)
    requires |after| == |es|
  {
    && w < |es| && s < |es| && after[w].validity != es[w].validity
    && after[w].validity.Some? && after[w].validity.value.invalidatedBy == Some(es[s].uri)
  }

  /** Every change closes a claim with a link to one that beats it. */
  ghost predicate LinksGoUp(es: seq<Entry>, after: seq<Entry>, env: Env)
  {
    && OnlyRepaired(es, after)
    && forall w :: 0 <= w < |es| && after[w].validity != es[w].validity ==>
         after[w].validity.Some? && exists s ::
           0 <= s < |es| && after[w].validity.value.invalidatedBy == Some(es[s].uri) && Beats(es, s, w, env)
  }

  /** A task that invalidates speaks of two entries far enough apart, in the order they are listed. */
  ghost predicate Decisive(es: seq<Entry>, t: Task, env: Env)
  {
    t.action.InvalidateWeaker? ==>
      exists i, j :: 0 <= i < j < |es| && t.a == es[i].uri && t.b == es[j].uri
        && Abs(Quality(es[i]) - Quality(es[j])) >= env.delta
  }

  lemma {:induction false} CandidateIndex(es: seq<Entry>, now: int, i: nat, j: nat) returns (x: nat, y: nat)
    requires i < j < |Candidates(es, now)|
    ensures x < y < |es| && es[x] == Candidates(es, now)[i] && es[y] == Candidates(es, now)[j]
    decreases |es|
  {
    var n := |es| - 1;
    var before := Candidates(es[..n], now);
    if j < |before| {
      x, y := CandidateIndex(es[..n], now, i, j);
    } else {
      y := n;
      assert before[i] in es[..n];
      x :| 0 <= x < n && es[..n][x] == before[i];
    }
  }

  lemma PlanIsDecisive(es: seq<Entry>, now: int, t: Task, env: Env)
    requires t in PlanOf(Candidates(es, now), env)
    ensures Decisive(es, t, env)
  {
    var c := Candidates(es, now);
    PlanHas(c, t, env);
    var i, j :| 0 <= i < j < |c| && t in Judge(c[i], c[j], env);
    var x, y := CandidateIndex(es, now, i, j);
  }

  lemma ClosingGoesUp(es: seq<Entry>, before: seq<Entry>, w: nat, s: nat, t: Task, now: int, env: Env)
    requires LinksGoUp(es, before, env) && w < |es| && s < |es| && Beats(es, s, w, env)
    ensures LinksGoUp(es, before[w := Closed(before[w], es[s].uri, t, now)], env)
  {
  }

  lemma MarkingGoesUp(es: seq<Entry>, before: seq<Entry>, w: nat, tag: Tag, t: Task, env: Env)
    requires LinksGoUp(es, before, env) && w < |es|
    ensures LinksGoUp(es, before[w := Marked(before[w], tag, t)], env)
  {
  }

  lemma FarApartBeats(es: seq<Entry>, i: nat, j: nat, env: Env)
    requires i < j < |es| && Abs(Quality(es[i]) - Quality(es[j])) >= env.delta >= 0.0
    ensures if Raw(es[i]) <= Raw(es[j]) then Beats(es, j, i, env) else Beats(es, i, j, env)
  {
  }

  lemma ApplyTaskGoesUp(es: seq<Entry>, before: seq<Entry>, t: Task, now: int, env: Env)
    requires DistinctUris(es) && LinksGoUp(es, before, env) && Decisive(es, t, env) && env.delta >= 0.0
    ensures LinksGoUp(es, ApplyTask(before, t, now), env)
  {
    if t.action.InvalidateWeaker? {
      var i, j :| 0 <= i < j < |es| && t.a == es[i].uri && t.b == es[j].uri
        && Abs(Quality(es[i]) - Quality(es[j])) >= env.delta;
      FarApartBeats(es, i, j, env);
      ApplyIs(es, before, t, i, j, now);
      if Raw(es[i]) <= Raw(es[j]) {
        ClosingGoesUp(es, before, i, j, t, now, env);
      } else {
        ClosingGoesUp(es, before, j, i, t, now, env);
      }
    } else {
      var ia, ib := IndexOf(before, t.a), IndexOf(before, t.b);
      if ia.Some? && ib.Some? {
        var tag := if t.action.RevalidateBoth? then Revalidate else ContextualConflict;
        MarkingGoesUp(es, before, ia.value, tag, t, env);
        MarkingGoesUp(es, before[ia.value := Marked(before[ia.value], tag, t)], ib.value, tag, t, env);
      }
    }
  }

  lemma ApplyIs(es: seq<Entry>, before: seq<Entry>, t: Task, i: nat, j: nat, now: int)
    requires DistinctUris(es) && OnlyRepaired(es, before) && t.action.InvalidateWeaker?
    requires i < j < |es| && t.a == es[i].uri && t.b == es[j].uri
    ensures ApplyTask(before, t, now)
            == if Raw(es[i]) <= Raw(es[j]) then before[i := Closed(before[i], t.b, t, now)]
              else before[j := Closed(before[j], t.a, t, now)]
  {
  }

  lemma {:induction false} ApplyGoesUp(es: seq<Entry>, ts: seq<Task>, now: int, env: Env)
    requires DistinctUris(es) && env.delta >= 0.0 && forall t :: t in ts ==> Decisive(es, t, env)
    ensures LinksGoUp(es, ApplyAll(es, ts, now), env)
    decreases |ts|
  {
    if ts != [] {
      ApplyGoesUp(es, ts[..|ts| - 1], now, env);
      ApplyTaskGoesUp(es, ApplyAll(es, ts[..|ts| - 1], now), ts[|ts| - 1], now, env);
    }
  }

  /** A plan applied to the entries it was made from closes weaker claims by stronger ones, and does nothing else. */
  lemma RepairGoesUp(es: seq<Entry>, now: int, env: Env)
    requires DistinctUris(es) && env.delta >= 0.0
    ensures LinksGoUp(es, ApplyAll(es, PlanOf(Candidates(es, now), env), now), env)
  {
    var ts := PlanOf(Candidates(es, now), env);
    forall t | t in ts ensures Decisive(es, t, env) { PlanIsDecisive(es, now, t, env); }
    ApplyGoesUp(es, ts, now, env);
  }

  /** Each step of a chain is a link the application wrote. */
  ghost predicate Chain(es: seq<Entry>, after: seq<Entry>, path: seq<nat>)
    requires |after| == |es|
    decreases |path|
  {
    && path != [] && path[0] < |es|
    && (|path| == 1 || (Linked(es, after, path[0], path[1]) && Chain(es, after, path[1..])))
  }

  function Times(n: nat, d: real): real { if n == 0 then 0.0 else Times(n - 1, d) + d }

  lemma {:induction false} ChainClimbs(es: seq<Entry>, after: seq<Entry>, path: seq<nat>, env: Env)
    requires DistinctUris(es) && LinksGoUp(es, after, env) && Chain(es, after, path) && env.delta >= 0.0
    ensures path[|path| - 1] < |es|
    ensures Quality(es[path[|path| - 1]]) >= Quality(es[path[0]]) + Times(|path| - 1, env.delta)
    ensures |path| > 1 ==> Beats(es, path[|path| - 1], path[0], env.(delta := 0.0))
    decreases |path|
  {
    if |path| > 1 {
      ChainClimbs(es, after, path[1..], env);
    }
  }

  lemma {:induction false} TimesIs(n: nat, d: real)
    ensures Times(n, d) == n as real * d
    decreases n
  {
    if n > 0 {
      TimesIs(n - 1, d);
      assert n as real == (n - 1) as real + 1.0;
      assert (n - 1) as real * d + d == n as real * d;
    }
  }

  /**
    Whatever the qualities, no chain comes back to where it was; with a positive delta it has at most
    1 / delta links.
  */
  lemma ChainsAreShort(es: seq<Entry>, now: int, path: seq<nat>, env: Env)
    requires DistinctUris(es) && env.delta >= 0.0
    requires Chain(es, ApplyAll(es, PlanOf(Candidates(es, now), env), now), path)
    ensures |path| > 1 ==> path[0] != path[|path| - 1]
    ensures env.delta > 0.0 ==> (|path| - 1) as real <= 1.0 / env.delta
  {
    RepairGoesUp(es, now, env);
    ClimbsAreShort(es, ApplyAll(es, PlanOf(Candidates(es, now), env), now), path, env);
  }

  lemma ClimbsAreShort(es: seq<Entry>, after: seq<Entry>, path: seq<nat>, env: Env)
    requires DistinctUris(es) && LinksGoUp(es, after, env) && Chain(es, after, path) && env.delta >= 0.0
    ensures |path| > 1 ==> path[0] != path[|path| - 1]
    ensures env.delta > 0.0 ==> (|path| - 1) as real <= 1.0 / env.delta
  {
    ChainClimbs(es, after, path, env);
    if env.delta > 0.0 { TimesBound(|path| - 1, env.delta); }
  }

  lemma TimesBound(n: nat, d: real)
    requires d > 0.0 && Times(n, d) <= 1.0
    ensures n as real <= 1.0 / d
  {
    TimesIs(n, d);
  }

  /** With a positive delta a claim of the highest quality keeps its validity: it is tagged at most. */
  lemma TheBestStays(es: seq<Entry>, now: int, k: nat, env: Env)
    requires DistinctUris(es) && env.delta > 0.0 && k < |es|
    requires forall i :: 0 <= i < |es| ==> Quality(es[i]) <= Quality(es[k])
    ensures ApplyAll(es, PlanOf(Candidates(es, now), env), now)[k].validity == es[k].validity
  {
    RepairGoesUp(es, now, env);
  }

  // ------------------------------------------------------------------ what a repair is for

  /** The pair, in whichever order it is listed. */
  ghost predicate Clashing(es: seq<Entry>, x: nat, y: nat, now: int, env: Env)
  {
    Clash(es, x, y, now, env) || Clash(es, y, x, now, env)
  }

  /** `w` was closed now, for good reason, in favour of `s`. */
  ghost predicate ClosedFor(es: seq<Entry>, after: seq<Entry>, w: nat, s: nat, now: int, env: Env)
    requires w < |es| == |after| && s < |es|
  {
    && Clashing(es, w, s, now, env) && env.autoInvalidate && Quality(es[s]) >= Quality(es[w]) + env.delta
    && after[w].validity.Some?
    && var v := after[w].validity.value;
    && v.validFrom == es[w].createdAt && v.validUntil == Some(now) && v.invalidatedBy == Some(es[s].uri)
    && v.reason.Some? && Settles(v.reason.value, es[if w < s then w else s], es[if w < s then s else w], env)
    && AutoInvalidated in after[w].tags
  }

  ghost predicate Justified(es: seq<Entry>, after: seq<Entry>, now: int, env: Env)
  {
    && OnlyRepaired(es, after)
    && forall w :: 0 <= w < |es| && after[w].validity != es[w].validity ==>
         exists s :: 0 <= s < |es| && ClosedFor(es, after, w, s, now, env)
  }

  lemma TaskJustifies(es: seq<Entry>, before: seq<Entry>, t: Task, now: int, env: Env)
    requires DistinctUris(es) && env.delta >= 0.0 && Justified(es, before, now, env) && Due(t, es, now, env)
    ensures Justified(es, ApplyTask(before, t, now), now, env)
  {
    SpokenStays(es, before, t, now);
    TagsStay(before, t, now);
    var after := ApplyTask(before, t, now);
    if t.action.InvalidateWeaker? {
      var i, j :| Clash(es, i, j, now, env) && Settles(t, es[i], es[j], env);
      var w, s := ClosingIsJust(es, before, t, i, j, now, env);
      StillJust(es, before, after, w, now, env);
    } else {
      StillJust(es, before, after, |es|, now, env);
    }
  }

  lemma ClosingIsJust(es: seq<Entry>, before: seq<Entry>, t: Task, i: nat, j: nat, now: int, env: Env)
    returns (w: nat, s: nat)
    requires DistinctUris(es) && env.delta >= 0.0 && OnlyRepaired(es, before)
    requires Clash(es, i, j, now, env) && Settles(t, es[i], es[j], env) && t.action.InvalidateWeaker?
    ensures w < |es| && s < |es| && ClosedFor(es, ApplyTask(before, t, now), w, s, now, env)
    ensures forall v :: 0 <= v < |es| && v != w ==> ApplyTask(before, t, now)[v] == before[v]
  {
    DistanceIs(es[i], es[j]);
    ApplyIs(es, before, t, i, j, now);
    FarApartBeats(es, i, j, env);
    if Raw(es[i]) <= Raw(es[j]) { w, s := i, j; } else { w, s := j, i; }
  }

  /** Whatever was closed for a reason still is. */
  lemma StillJust(es: seq<Entry>, before: seq<Entry>, after: seq<Entry>, w: nat, now: int, env: Env)
    requires Justified(es, before, now, env) && OnlyRepaired(es, after)
    requires forall v, tag :: 0 <= v < |es| && tag in before[v].tags ==> tag in after[v].tags
    requires forall v :: 0 <= v < |es| && v != w ==> after[v].validity == before[v].validity
    requires w < |es| ==> exists s :: 0 <= s < |es| && ClosedFor(es, after, w, s, now, env)
    ensures Justified(es, after, now, env)
  {
    forall v | 0 <= v < |es| && after[v].validity != es[v].validity
      ensures exists s :: 0 <= s < |es| && ClosedFor(es, after, v, s, now, env)
    {
      if v != w {
        var u :| 0 <= u < |es| && ClosedFor(es, before, v, u, now, env);
        assert ClosedFor(es, after, v, u, now, env);
      }
    }
  }

  /** A task takes no tag away, and a validity only from an entry it invalidates. */
  lemma TagsStay(before: seq<Entry>, t: Task, now: int)
    ensures var after := ApplyTask(before, t, now);
            && (forall v, tag :: 0 <= v < |before| && tag in before[v].tags ==> tag in after[v].tags)
            && (!t.action.InvalidateWeaker? ==> forall v :: 0 <= v < |before| ==>
              after[v].validity == before[v].validity)
  {
  }

  lemma {:induction false} TasksJustify(es: seq<Entry>, ts: seq<Task>, now: int, env: Env)
    requires DistinctUris(es) && env.delta >= 0.0 && forall t :: t in ts ==> Due(t, es, now, env)
    ensures Justified(es, ApplyAll(es, ts, now), now, env)
    decreases |ts|
  {
    if ts != [] {
      TasksJustify(es, ts[..|ts| - 1], now, env);
      TaskJustifies(es, ApplyAll(es, ts[..|ts| - 1], now), ts[|ts| - 1], now, env);
    }
  }

  /**
    Applying a plan to the entries it was made from closes an entry only in favour of one that it
    contradicts, that is better by delta and was valid, and only if that is wanted; the record it
    leaves says from when, until when, by whom and why.
  */
  lemma RepairIsJustified(es: seq<Entry>, now: int, env: Env)
    requires DistinctUris(es) && env.delta >= 0.0
    ensures Justified(es, ApplyAll(es, PlanOf(Candidates(es, now), env), now), now, env)
  {
    PlanIsDue(es, now, env);
    TasksJustify(es, PlanOf(Candidates(es, now), env), now, env);
  }

  /** With room for every pair, no clash between entries far apart survives: one of the two is closed. */
  lemma NoClearClashSurvives(es: seq<Entry>, now: int, i: nat, j: nat, env: Env)
    requires DistinctUris(es) && env.delta >= 0.0 && env.autoInvalidate && 2 * env.maxPairs >= |es| * (|es| - 1)
    requires Clash(es, i, j, now, env) && Distance(es[i], es[j]) >= env.delta
    ensures var after := ApplyAll(es, PlanOf(Candidates(es, now), env), now);
            var w := if Raw(es[i]) <= Raw(es[j]) then i else j;
            after[w].validity.Some? && after[w].validity.value.validUntil == Some(now)
  {
    var tasks := PlanOf(Candidates(es, now), env);
    forall t | t in tasks ensures Due(t, es, now, env) { PlannedIsDue(es, now, t, env); }
    var k := TaskFor(es, now, i, j, env);
    ClosedOnce(es, tasks, k, i, j, now, env);
  }

  lemma TaskFor(es: seq<Entry>, now: int, i: nat, j: nat, env: Env) returns (k: nat)
    requires Clash(es, i, j, now, env) && 2 * env.maxPairs >= |es| * (|es| - 1)
    ensures k < |PlanOf(Candidates(es, now), env)| && Settles(PlanOf(Candidates(es, now), env)[k], es[i], es[j], env)
  {
    DueIsPlanned(es, now, i, j, env);
    var tasks := PlanOf(Candidates(es, now), env);
    var t :| t in tasks && Settles(t, es[i], es[j], env);
    k :| 0 <= k < |tasks| && tasks[k] == t;
  }

  /** Once closed an entry stays closed as of now. */
  lemma {:induction false} ClosedOnce(es: seq<Entry>, ts: seq<Task>, k: nat, i: nat, j: nat, now: int, env: Env)
    requires DistinctUris(es) && env.delta >= 0.0 && i < j < |es| && k < |ts|
    requires ts[k].a == es[i].uri && ts[k].b == es[j].uri && ts[k].action.InvalidateWeaker?
    requires forall t :: t in ts ==> Due(t, es, now, env)
    ensures var w := if Raw(es[i]) <= Raw(es[j]) then i else j;
            var v := ApplyAll(es, ts, now)[w].validity; v.Some? && v.value.validUntil == Some(now)
    decreases |ts|
  {
    var n := |ts| - 1;
    var before := ApplyAll(es, ts[..n], now);
    TasksJustify(es, ts[..n], now, env);
    if k == n {
      ApplyIs(es, before, ts[k], i, j, now);
    } else {
      ClosedOnce(es, ts[..n], k, i, j, now, env);
      ClosedStays(before, ts[n], now);
    }
  }

  ghost predicate EndsNow(e: Entry, now: int) { e.validity.Some? && e.validity.value.validUntil == Some(now) }

  lemma ClosedStays(before: seq<Entry>, t: Task, now: int)
    ensures var after := ApplyTask(before, t, now);
            forall w :: 0 <= w < |before| && EndsNow(before[w], now) ==> EndsNow(after[w], now)
  {
  }

  /** What each kind of task writes on the entries it speaks to. */
  lemma TaskMarks(es: seq<Entry>, t: Task, now: int, i: nat)
    requires i in Spoken(es, t) && i < |es|
    ensures var after := ApplyTask(es, t, now)[i];
            && after.note == Some(t)
            && (t.action == InvalidateWeaker ==> AutoInvalidated in after.tags)
            && (t.action == RevalidateBoth ==> Revalidate in after.tags && after.validity == es[i].validity)
            && (t.action == KeepBothContextual ==> ContextualConflict in after.tags && after.validity == es[i].validity)
  {
  }
}
