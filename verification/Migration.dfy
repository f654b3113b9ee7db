/**
  The embedding migration: a phase machine whose state is replaced by compare-and-swap on a
  generation, raced by any number of callers that load first and swap later, and the re-encoding
  run that fills the target collections.
*/
module Migration {
  import opened Prelude

  datatype Phase = Reindex | DualWrite | Evaluating | Cutover | Complete

  predicate CanTransition(from: Phase, next: Phase)
  {
    match from
    case Reindex => next.DualWrite?
    case DualWrite => next.Evaluating?
    case Evaluating => next.Cutover?
    case Cutover => next.Complete?
    case Complete => false
  }

  datatype Metrics = Metrics(recallAtK: real, cosineMargin: real)
  datatype Gate = Gate(minRecallAtK: real, minCosineMargin: real)

  datatype MigrationState = MigrationState(
    id: string,
    generation: nat,
    phase: Phase,
    gate: Gate,
    evaluation: Option<Metrics>)

  datatype Error = NotFound | Conflict | CutoverNeedsEvaluation | GateFailed

  predicate Meets(m: Metrics, g: Gate)
  {
    m.recallAtK >= g.minRecallAtK && m.cosineMargin >= g.minCosineMargin
  }

  function Generation(current: Option<MigrationState>): nat
  {
    if current.Some? then current.value.generation else 0
  }

  /** `compare_and_swap`: `None` is a conflict. */
  function Swap(current: Option<MigrationState>, expected: nat, next: MigrationState): Option<MigrationState>
  {
    if Generation(current) != expected || next.generation != expected + 1 then None else Some(next)
  }

  /** The part of `transition` between the load and the swap. */
  function Propose(loaded: Option<MigrationState>, expected: nat, next: Phase): Result<MigrationState, Error>
  {
    if loaded.None? then Err(NotFound)
    else
      var s := loaded.value;
      if s.generation != expected || !CanTransition(s.phase, next) then Err(Conflict)
      else if next.Cutover? && s.evaluation.None? then Err(CutoverNeedsEvaluation)
      else if next.Cutover? && (s.evaluation.value.recallAtK < s.gate.minRecallAtK
                                || s.evaluation.value.cosineMargin < s.gate.minCosineMargin) then Err(GateFailed)
      else Ok(s.(phase := next, generation := s.generation + 1))
  }

  /** The four moves there are, at the generation the caller has seen; the third needs metrics that meet the gate. */
  predicate Allowed(s: MigrationState, expected: nat, next: Phase)
  {
    && s.generation == expected
    && (|| (s.phase == Reindex && next == DualWrite)
        || (s.phase == DualWrite && next == Evaluating)
        || (s.phase == Evaluating && next == Cutover && s.evaluation.Some?
            && s.evaluation.value.recallAtK >= s.gate.minRecallAtK
            && s.evaluation.value.cosineMargin >= s.gate.minCosineMargin)
        || (s.phase == Cutover && next == Complete))
  }

  /** A loaded state is proposed with the next phase and generation exactly when the move is allowed. */
  lemma ProposedIff(s: MigrationState, expected: nat, next: Phase)
    ensures Propose(Some(s), expected, next)
            == if Allowed(s, expected, next) then
                 Ok(MigrationState(s.id, expected + 1, next, s.gate, s.evaluation))
               else if s.generation == expected && s.phase == Evaluating && next == Cutover then
                 Err(if s.evaluation.None? then CutoverNeedsEvaluation else GateFailed)
               else Err(Conflict)
  {
  }

  /** `FileMigrationStateStore` and `AtomicCutover`: one durable file per migration id. */
  class StateStore {
    var files: map<string, MigrationState>

    constructor ()
      ensures files == map[]
    {
      files := map[];
    }

    function Load(id: string): (current: Option<MigrationState>)
      reads this
    {
      if id in files then Some(files[id]) else None
    }

    method CompareAndSwap(expected: nat, next: MigrationState) returns (ok: bool)
      modifies this
      ensures ok <==> Swap(old(Load(next.id)), expected, next).Some?
      ensures ok <==>
              && expected == (if next.id in old(files) then old(files)[next.id].generation else 0)
              && next.generation == expected + 1
      ensures files == if ok then old(files)[next.id := next] else old(files)
    {
      var actual := if next.id in files then files[next.id].generation else 0;
      ok := actual == expected && next.generation == expected + 1;
      if ok {
        files := files[next.id := next];
      }
    }

    /** With nobody in between, a transition succeeds exactly when its checks pass, and then the swap cannot fail. */
    method Transition(id: string, expected: nat, nextPhase: Phase) returns (r: Result<MigrationState, Error>)
      requires id in files ==> files[id].id == id
      modifies this
      ensures r == Propose(old(Load(id)), expected, nextPhase)
      ensures r.Ok? <==> id in old(files) && Allowed(old(files)[id], expected, nextPhase)
      ensures r.Ok? ==> r.value == old(files)[id].(phase := nextPhase, generation := expected + 1)
      ensures r == Err(NotFound) <==> id !in old(files)
      ensures r == Err(CutoverNeedsEvaluation) <==>
              && id in old(files) && old(files)[id].generation == expected && old(files)[id].phase == Evaluating
              && nextPhase == Cutover && old(files)[id].evaluation == None
      ensures files == if r.Ok? then old(files)[id := r.value] else old(files)
    {
      if id !in files { return Err(NotFound); }
      var state := files[id];
      if state.generation != expected || !CanTransition(state.phase, nextPhase) { return Err(Conflict); }
      if nextPhase == Cutover {
        if state.evaluation.None? { return Err(CutoverNeedsEvaluation); }
        var metrics := state.evaluation.value;
        if metrics.recallAtK < state.gate.minRecallAtK || metrics.cosineMargin < state.gate.minCosineMargin {
          return Err(GateFailed);
        }
      }
      state := state.(phase := nextPhase, generation := state.generation + 1);
      var ok := CompareAndSwap(expected, state);
      r := if ok then Ok(state) else Err(Conflict);
    }
  }

  // ------------------------------------------------------------------ racing callers

  /** A caller between its load and its swap: what it saw, and what it wants to write. */
  datatype Pending = Pending(seen: Option<MigrationState>, expected: nat, next: MigrationState)

  /** The durable state, the callers in flight, and the history of durable states with who wrote each. */
  datatype System = System(
    current: Option<MigrationState>,
    pending: map<nat, Pending>,
    history: seq<MigrationState>,
    winners: seq<nat>)

  const NOTHING := System(None, map[], [], [])

  datatype Action =
    | LoadFor(caller: nat, expected: nat, next: Phase)
    | LoadToRecord(caller: nat, metrics: Metrics)
    | Register(caller: nat, first: MigrationState)
    | CallSwap(caller: nat)
    | Die(caller: nat)

  /** Other writers register the migration before cutover, or record an evaluation while it is being evaluated. */
  predicate Honest(a: Action, current: Option<MigrationState>)
  {
    && (a.Register? ==> !a.first.phase.Cutover? && !a.first.phase.Complete?)
    && (a.LoadToRecord? ==> current.Some? && current.value.phase.Evaluating?)
  }

  function Step(s: System, a: Action): System
  {
    match a
    case LoadFor(c, expected, next) =>
      var r := Propose(s.current, expected, next);
      if r.Ok? then s.(pending := s.pending[c := Pending(s.current, expected, r.value)]) else s
    case LoadToRecord(c, metrics) =>
      if s.current.None? then s
      else
        var seen := s.current.value;
        s.(pending := s.pending[c := Pending(s.current, seen.generation,
                                             seen.(evaluation := Some(metrics), generation := seen.generation + 1))])
    case Register(c, first) => s.(pending := s.pending[c := Pending(None, 0, first)])
    case CallSwap(c) =>
      if c !in s.pending then s
      else
        var p := s.pending[c];
        var r := Swap(s.current, p.expected, p.next);
        var t := s.(pending := s.pending - {c});
        if r.None? then t else t.(current := r, history := s.history + [p.next], winners := s.winners + [c])
    case Die(c) => s.(pending := s.pending - {c})
  }

  function Run(s: System, acts: seq<Action>): System
    decreases |acts|
  {
    if acts == [] then s else Run(Step(s, acts[0]), acts[1..])
  }

  ghost predicate HonestRun(s: System, acts: seq<Action>)
    decreases |acts|
  {
    acts == [] || (Honest(acts[0], s.current) && HonestRun(Step(s, acts[0]), acts[1..]))
  }

  /** A state after cutover carries metrics that meet its gate. */
  predicate Gated(s: MigrationState)
  {
    s.phase.Cutover? || s.phase.Complete? ==> s.evaluation.Some? && Meets(s.evaluation.value, s.gate)
  }

  /** What one durable change may do. */
  predicate Advances(before: MigrationState, after: MigrationState)
  {
    && after.generation == before.generation + 1 && after.gate == before.gate && after.id == before.id
    && (CanTransition(before.phase, after.phase) || after.phase == before.phase)
    && (after.evaluation == before.evaluation || (before.phase.Evaluating? && after.phase.Evaluating?))
  }

  ghost predicate PendingOk(p: Pending, s: System)
  {
    && (p.seen.None? ==> p.expected == 0)
    && (p.seen.Some? ==> p.expected == p.seen.value.generation && Advances(p.seen.value, p.next))
    && (p.seen.Some? ==> p.seen.value in s.history)
    && Gated(p.next)
  }

  ghost predicate Inv(s: System)
  {
    && s.current == (if s.history == [] then None else Some(s.history[|s.history| - 1]))
    && |s.winners| == |s.history|
    && (forall i :: 0 <= i < |s.history| ==> s.history[i].generation == i + 1 && Gated(s.history[i]))
    && (forall i :: 0 < i < |s.history| ==> Advances(s.history[i - 1], s.history[i]))
    && (forall c :: c in s.pending ==> PendingOk(s.pending[c], s))
  }

  /** A swap that wins replaces exactly the state its caller loaded. */
  lemma SwapReplacesWhatWasSeen(s: System, c: nat)
    requires Inv(s) && c in s.pending && Step(s, CallSwap(c)).current != s.current
    ensures s.pending[c].seen == s.current && Step(s, CallSwap(c)).current == Some(s.pending[c].next)
    ensures Generation(Step(s, CallSwap(c)).current) == Generation(s.current) + 1
  {
  }

  lemma SwapKeeps(s: System, c: nat)
    requires Inv(s) && c in s.pending && Step(s, CallSwap(c)).current != s.current
    ensures Inv(Step(s, CallSwap(c)))
  {
  }

  lemma StepKeeps(s: System, a: Action)
    requires Inv(s) && Honest(a, s.current)
    ensures Inv(Step(s, a))
  {
    var t := Step(s, a);
    if t.current != s.current { SwapKeeps(s, a.caller); return; }
    if a.CallSwap? && a.caller in s.pending {
      var p := s.pending[a.caller];
      assert PendingOk(p, s);
      assert Swap(s.current, p.expected, p.next).Some? ==> p.next.generation == Generation(s.current) + 1;
    }
    if s.current.Some? { assert s.history[|s.history| - 1] in s.history; }
    forall c | c in t.pending ensures PendingOk(t.pending[c], t) {
      if c in s.pending && s.pending[c] == t.pending[c] { assert PendingOk(s.pending[c], s); }
    }
  }

  lemma {:induction false} RunKeeps(s: System, acts: seq<Action>)
    requires Inv(s) && HonestRun(s, acts)
    ensures Inv(Run(s, acts))
    decreases |acts|
  {
    if acts != [] {
      StepKeeps(s, acts[0]);
      RunKeeps(Step(s, acts[0]), acts[1..]);
    }
  }

  /**
    Under any interleaving of honest callers: the i-th durable change has generation i + 1 and one
    writer, consecutive states differ by one allowed advance, and from cutover on the evaluation
    meets the gate.
  */
  lemma EveryHistoryIsSound(acts: seq<Action>)
    requires HonestRun(NOTHING, acts)
    ensures var h := Run(NOTHING, acts).history;
            && |Run(NOTHING, acts).winners| == |h| == Generation(Run(NOTHING, acts).current)
            && (forall i :: 0 <= i < |h| ==> h[i].generation == i + 1 && Gated(h[i]))
            && (forall i :: 0 < i < |h| ==> Advances(h[i - 1], h[i]))
  {
    RunKeeps(NOTHING, acts);
  }

  function Rank(p: Phase): nat
  {
    match p
    case Reindex => 0
    case DualWrite => 1
    case Evaluating => 2
    case Cutover => 3
    case Complete => 4
  }

  /** Phases never go back, and no phase of the chain is skipped between two durable states. */
  lemma {:induction false} PhasesFollowTheChain(h: seq<MigrationState>, i: nat, j: nat, skipped: Phase)
    requires i <= j < |h| && forall k :: 0 < k < |h| ==> Advances(h[k - 1], h[k])
    ensures Rank(h[i].phase) <= Rank(h[j].phase)
    ensures Rank(h[i].phase) <= Rank(skipped) <= Rank(h[j].phase) ==> exists k :: i <= k <= j && h[k].phase == skipped
    decreases j
  {
    if i < j {
      PhasesFollowTheChain(h, i, j - 1, skipped);
      assert Advances(h[j - 1], h[j]);
      if Rank(h[i].phase) <= Rank(skipped) <= Rank(h[j].phase) {
        if Rank(skipped) <= Rank(h[j - 1].phase) {
          var k :| i <= k <= j - 1 && h[k].phase == skipped;
        } else {
          assert h[j].phase == skipped;
        }
      }
    } else if Rank(h[i].phase) <= Rank(skipped) <= Rank(h[j].phase) {
      assert h[i].phase == skipped;
    }
  }

  // ------------------------------------------------------------------ a migration that completes

  /** A state with nobody in flight. */
  ghost predicate Quiet(s: System, x: MigrationState)
  {
    s.current == Some(x) && s.pending == map[] && x.generation > 0
  }

  function Filed(s: System, x: MigrationState, c: nat): System
  {
    System(Some(x), map[], s.history + [x], s.winners + [c])
  }

  lemma MoveOn(s: System, x: MigrationState, c: nat, next: Phase)
    requires Quiet(s, x) && Allowed(x, x.generation, next)
    ensures Run(s, [LoadFor(c, x.generation, next), CallSwap(c)])
            == Filed(s, x.(phase := next, generation := x.generation + 1), c)
  {
    var y := x.(phase := next, generation := x.generation + 1);
    var t := Step(s, LoadFor(c, x.generation, next));
    assert t == s.(pending := map[c := Pending(s.current, x.generation, y)]);
    assert Step(t, CallSwap(c)) == Filed(s, y, c);
    assert [LoadFor(c, x.generation, next), CallSwap(c)][1..] == [CallSwap(c)];
    assert Run(t, [CallSwap(c)]) == Run(Step(t, CallSwap(c)), []);
  }

  lemma RecordOn(s: System, x: MigrationState, c: nat, metrics: Metrics)
    requires Quiet(s, x)
    ensures Run(s, [LoadToRecord(c, metrics), CallSwap(c)])
            == Filed(s, x.(evaluation := Some(metrics), generation := x.generation + 1), c)
  {
    var y := x.(evaluation := Some(metrics), generation := x.generation + 1);
    var t := Step(s, LoadToRecord(c, metrics));
    assert t == s.(pending := map[c := Pending(s.current, x.generation, y)]);
    assert Step(t, CallSwap(c)) == Filed(s, y, c);
    assert [LoadToRecord(c, metrics), CallSwap(c)][1..] == [CallSwap(c)];
    assert Run(t, [CallSwap(c)]) == Run(Step(t, CallSwap(c)), []);
  }

  lemma {:induction false} RunConcat(s: System, a: seq<Action>, b: seq<Action>)
    ensures Run(s, a + b) == Run(Run(s, a), b)
    decreases |a|
  {
    if a == [] {
      assert a + b == b;
    } else {
      assert (a + b)[0] == a[0] && (a + b)[1..] == a[1..] + b;
      RunConcat(Step(s, a[0]), a[1..], b);
    }
  }

  lemma Registered(first: MigrationState, c: nat)
    requires first.generation == 1
    ensures Run(NOTHING, [Register(c, first), CallSwap(c)]) == Filed(NOTHING, first, c)
  {
    var t := Step(NOTHING, Register(c, first));
    assert [Register(c, first), CallSwap(c)][1..] == [CallSwap(c)];
    assert Step(t, CallSwap(c)) == Filed(NOTHING, first, c);
    assert Run(t, [CallSwap(c)]) == Run(Step(t, CallSwap(c)), []);
  }

  /**
    From registration through dual writing, evaluation and cutover to the end, whatever the gate and
    the metrics that meet it.
  */
  function ToTheEnd(first: MigrationState, metrics: Metrics, c: nat): seq<Action>
  {
    [Register(c, first), CallSwap(c)]
    + ([LoadFor(c, 1, DualWrite), CallSwap(c)]
       + ([LoadFor(c, 2, Evaluating), CallSwap(c)]
          + ([LoadToRecord(c, metrics), CallSwap(c)]
             + ([LoadFor(c, 4, Cutover), CallSwap(c)] + [LoadFor(c, 5, Complete), CallSwap(c)]))))
  }

  lemma MigrationCompletes(first: MigrationState, metrics: Metrics, c: nat)
    requires first.generation == 1 && first.phase == Reindex
    requires metrics.recallAtK >= first.gate.minRecallAtK && metrics.cosineMargin >= first.gate.minCosineMargin
    ensures Run(NOTHING, ToTheEnd(first, metrics, c)).current
            == Some(MigrationState(first.id, 6, Complete, first.gate, Some(metrics)))
  {
    var s1 := Filed(NOTHING, first, c);
    Registered(first, c);
    var x2 := first.(phase := DualWrite, generation := 2);
    var s2 := Filed(s1, x2, c);
    MoveOn(s1, first, c, DualWrite);
    var x3 := x2.(phase := Evaluating, generation := 3);
    var s3 := Filed(s2, x3, c);
    MoveOn(s2, x2, c, Evaluating);
    RunConcat(NOTHING, [Register(c, first), CallSwap(c)], ToTheEnd(first, metrics, c)[2..]);
    assert ToTheEnd(first, metrics, c) == [Register(c, first), CallSwap(c)] + ToTheEnd(first, metrics, c)[2..];
    var rest := [LoadToRecord(c, metrics), CallSwap(c)]
                + ([LoadFor(c, 4, Cutover), CallSwap(c)] + [LoadFor(c, 5, Complete), CallSwap(c)]);
    RunConcat(s1, [LoadFor(c, 1, DualWrite), CallSwap(c)], [LoadFor(c, 2, Evaluating), CallSwap(c)] + rest);
    RunConcat(s2, [LoadFor(c, 2, Evaluating), CallSwap(c)], rest);
    assert ToTheEnd(first, metrics, c)[2..]
           == [LoadFor(c, 1, DualWrite), CallSwap(c)] + ([LoadFor(c, 2, Evaluating), CallSwap(c)] + rest);
    SecondHalf(s3, x3, metrics, c);
  }

  lemma SecondHalf(s: System, x: MigrationState, metrics: Metrics, c: nat)
    requires Quiet(s, x) && x.generation == 3 && x.phase == Evaluating
    requires metrics.recallAtK >= x.gate.minRecallAtK && metrics.cosineMargin >= x.gate.minCosineMargin
    ensures Run(s, [LoadToRecord(c, metrics), CallSwap(c)]
                   + ([LoadFor(c, 4, Cutover), CallSwap(c)] + [LoadFor(c, 5, Complete), CallSwap(c)])).current
            == Some(MigrationState(x.id, 6, Complete, x.gate, Some(metrics)))
  {
    var x4 := x.(evaluation := Some(metrics), generation := 4);
    var s4 := Filed(s, x4, c);
    RecordOn(s, x, c, metrics);
    var x5 := x4.(phase := Cutover, generation := 5);
    var s5 := Filed(s4, x5, c);
    MoveOn(s4, x4, c, Cutover);
    MoveOn(s5, x5, c, Complete);
    RunConcat(s, [LoadToRecord(c, metrics), CallSwap(c)],
              [LoadFor(c, 4, Cutover), CallSwap(c)] + [LoadFor(c, 5, Complete), CallSwap(c)]);
    RunConcat(s4, [LoadFor(c, 4, Cutover), CallSwap(c)], [LoadFor(c, 5, Complete), CallSwap(c)]);
  }

  // ------------------------------------------------------------------ when recorders are not honest

  /** `b` is what a transition makes of `a`. */
  ghost predicate Transitioned(a: MigrationState, b: MigrationState)
  {
    exists next :: Propose(Some(a), a.generation, next) == Ok(b)
  }

  /** `b` is what recording an evaluation makes of `a`. */
  ghost predicate Recorded(a: MigrationState, b: MigrationState)
  {
    exists m :: b == a.(evaluation := Some(m), generation := a.generation + 1)
  }

  /** A recording that cannot take the gate back: before cutover, or with metrics that meet it. */
  predicate Timely(a: MigrationState, b: MigrationState)
  {
    BeforeCutover(a) || (b.evaluation.Some? && Meets(b.evaluation.value, b.gate))
  }

  predicate BeforeCutover(s: MigrationState) { !s.phase.Cutover? && !s.phase.Complete? }

  ghost predicate Follows(a: MigrationState, b: MigrationState) { Transitioned(a, b) || Recorded(a, b) }

  ghost predicate PendingFollows(p: Pending, s: System)
  {
    if p.seen.None? then p.expected == 0 && BeforeCutover(p.next)
    else p.expected == p.seen.value.generation && Follows(p.seen.value, p.next) && p.seen.value in s.history
  }

  /** What any callers keep, as long as migrations are registered before cutover. */
  ghost predicate Chained(s: System)
  {
    && s.current == (if s.history == [] then None else Some(s.history[|s.history| - 1]))
    && (forall i :: 0 <= i < |s.history| ==> s.history[i].generation == i + 1)
    && (s.history != [] ==> BeforeCutover(s.history[0]))
    && (forall i :: 0 < i < |s.history| ==> Follows(s.history[i - 1], s.history[i]))
    && (forall c :: c in s.pending ==> PendingFollows(s.pending[c], s))
  }

  predicate EarlyRegistration(a: Action) { a.Register? ==> BeforeCutover(a.first) }

  lemma ChainedSwap(s: System, c: nat)
    requires Chained(s) && c in s.pending && Step(s, CallSwap(c)).history != s.history
    ensures Chained(Step(s, CallSwap(c)))
  {
    var p, t := s.pending[c], Step(s, CallSwap(c));
    assert PendingFollows(p, s);
    if p.seen.Some? {
      var i :| 0 <= i < |s.history| && s.history[i] == p.seen.value;
      assert s.history[i].generation == i + 1;
    }
    forall x | x in t.pending ensures PendingFollows(t.pending[x], t) {
      assert PendingFollows(s.pending[x], s);
    }
  }

  lemma ChainedStep(s: System, a: Action)
    requires Chained(s) && EarlyRegistration(a)
    ensures Chained(Step(s, a))
  {
    var t := Step(s, a);
    if t.history != s.history {
      ChainedSwap(s, a.caller);
    } else {
      if s.current.Some? { assert s.history[|s.history| - 1] in s.history; }
      forall x | x in t.pending ensures PendingFollows(t.pending[x], t) {
        if x in s.pending && t.pending[x] == s.pending[x] { assert PendingFollows(s.pending[x], s); }
      }
    }
  }

  lemma {:induction false} ChainedRun(s: System, acts: seq<Action>)
    requires Chained(s) && forall a :: a in acts ==> EarlyRegistration(a)
    ensures Chained(Run(s, acts))
    decreases |acts|
  {
    if acts != [] {
      ChainedStep(s, acts[0]);
      ChainedRun(Step(s, acts[0]), acts[1..]);
    }
  }

  /** The first `n` states keep the gate if the recordings among them are timely. */
  lemma {:induction false} TimelyKeepsGate(h: seq<MigrationState>, n: nat)
    requires 0 < n <= |h| && BeforeCutover(h[0])
    requires forall i :: 0 < i < n ==> Follows(h[i - 1], h[i]) && (Recorded(h[i - 1], h[i]) ==> Timely(h[i - 1], h[i]))
    ensures Gated(h[n - 1])
    decreases n
  {
    if n > 1 {
      TimelyKeepsGate(h, n - 1);
      assert Follows(h[n - 2], h[n - 1]);
    }
  }

  /**
    However callers race and whatever they record, every durable state from cutover on carries
    metrics that meet its gate if and only if every recording that won was made before cutover
    or met the gate.
  */
  lemma RecordingKeepsGateIff(acts: seq<Action>)
    requires forall a :: a in acts ==> EarlyRegistration(a)
    ensures var h := Run(NOTHING, acts).history;
            (forall i :: 0 <= i < |h| ==> Gated(h[i]))
            <==> (forall i :: 0 < i < |h| && Recorded(h[i - 1], h[i]) ==> Timely(h[i - 1], h[i]))
  {
    ChainedRun(NOTHING, acts);
    var h := Run(NOTHING, acts).history;
    if forall i :: 0 < i < |h| && Recorded(h[i - 1], h[i]) ==> Timely(h[i - 1], h[i]) {
      forall i | 0 <= i < |h| ensures Gated(h[i]) { TimelyKeepsGate(h, i + 1); }
    }
  }

  // ------------------------------------------------------------------ the re-encoding run

  datatype Modality = TextModality | ImageModality | AudioModality
  datatype Item = Item(uri: string, modality: Modality, input: string)
  datatype Point = Point(collection: string, uri: string, embedding: string)
  datatype Report = Report(encoded: nat, written: nat, byModality: map<Modality, nat>)

  function CountOf(items: seq<Item>, m: Modality): nat
  {
    if items == [] then 0 else CountOf(items[..|items| - 1], m) + if items[|items| - 1].modality == m then 1 else 0
  }

  function Tally(byModality: map<Modality, nat>, m: Modality): nat
  {
    if m in byModality then byModality[m] else 0
  }

  function Bump(byModality: map<Modality, nat>, m: Modality): map<Modality, nat>
  {
    byModality[m := Tally(byModality, m) + 1]
  }

  /** The per-modality counts of the first `n` items. */
  ghost predicate Tallied(byModality: map<Modality, nat>, items: seq<Item>, n: nat)
  {
    n <= |items| && forall m :: Tally(byModality, m) == CountOf(items[..n], m)
  }

  lemma TallyOne(items: seq<Item>, n: nat, byModality: map<Modality, nat>)
    requires n < |items| && Tallied(byModality, items, n)
    ensures Tallied(Bump(byModality, items[n].modality), items, n + 1)
  {
    assert items[..n + 1][..n] == items[..n];
    forall m ensures Tally(Bump(byModality, items[n].modality), m) == CountOf(items[..n + 1], m) {
      assert Tally(byModality, m) == CountOf(items[..n], m);
    }
  }

  class MigrationRun {
    const targets: map<Modality, string>
    const supported: set<Modality>
    const maxBatchSize: nat
    const encode: seq<Item> -> Option<seq<string>>
    const spaceMatches: bool                  // the encoder's space is valid and is the target space
    const valid: Item -> bool
    const stores: (nat, Point) -> bool        // whether the `n`-th point is accepted by the index
    var index: seq<Point>
    var asked: seq<seq<Item>>                 // the batches the encoder was given

    constructor (targets: map<Modality, string>, supported: set<Modality>, maxBatchSize: nat,
      encode: seq<Item> -> Option<seq<string>>,
                 spaceMatches: bool, valid: Item -> bool, stores: (nat, Point) -> bool)
      ensures this.targets == targets && this.supported == supported && index == [] && asked == []
      ensures this.maxBatchSize == maxBatchSize && this.encode == encode
      ensures this.spaceMatches == spaceMatches && this.valid == valid && this.stores == stores
    {
      this.targets, this.supported, this.maxBatchSize, this.encode, index := targets, supported, maxBatchSize, encode,
        [];
      this.spaceMatches, this.valid, this.stores, asked := spaceMatches, valid, stores, [];
    }

    predicate Accepts(items: seq<Item>)
    {
      spaceMatches && forall i :: 0 <= i < |items| ==>
        valid(items[i]) && items[i].modality in supported && items[i].modality in targets
    }

    function Chunk(items: seq<Item>, start: nat): seq<Item>
      requires start <= |items|
    {
      if start + BatchSize() <= |items| then items[start..start + BatchSize()] else items[start..]
    }

    /** The point for the `k`-th item, in the chunk from `start` on. */
    function PointOf(items: seq<Item>, start: nat, k: nat): Option<Point>
      requires start <= k < |items|
    {
      var embeddings := encode(Chunk(items, start));
      if embeddings.None? || k - start >= |embeddings.value| || items[k].modality !in targets then None
      else Some(Point(targets[items[k].modality], items[k].uri, embeddings.value[k - start]))
    }

    /**
      Why a run stopped after writing `k` points: the chunk that begins there is not encoded in
      full, or the next point is not accepted where it would stand.
    */
    ghost predicate StoppedAt(items: seq<Item>, k: nat, at: nat)
    {
      k < |items| && (BadChunk(items, k) || exists start :: 0 <= start <= k && Unaccepted(items, start, k, at))
    }

    ghost predicate Unaccepted(items: seq<Item>, start: nat, k: nat, at: nat)
      requires start <= k < |items|
    {
      PointOf(items, start, k).Some? && !stores(at, PointOf(items, start, k).value)
    }

    ghost predicate BadChunk(items: seq<Item>, start: nat)
      requires start <= |items|
    {
      var chunk := Chunk(items, start);
      encode(chunk).None? || |encode(chunk).value| != |chunk|
    }

    /** Each point written so far is the item of the same position, filed under its modality's target collection. */
    ghost predicate Filed(points: seq<Point>, items: seq<Item>, one: Item -> string)
    {
      && |points| <= |items|
      && (forall i :: 0 <= i < |points| ==>
            items[i].modality in targets && points[i].collection == targets[items[i].modality]
              && points[i].uri == items[i].uri)
      && (Pointwise(one) ==> forall i :: 0 <= i < |points| ==> points[i].embedding == one(items[i]))
    }

    /** The encoder embeds every item of a batch on its own. */
    ghost predicate Pointwise(one: Item -> string)
    {
      forall batch, i :: encode(batch).Some? && 0 <= i < |encode(batch).value| == |batch| ==>
        encode(batch).value[i] == one(batch[i])
    }

    lemma FiledOne(points: seq<Point>, p: Point, items: seq<Item>, one: Item -> string)
      requires Filed(points, items, one) && |points| < |items|
      requires var item := items[|points|];
               item.modality in targets && p.collection == targets[item.modality] && p.uri == item.uri
                 && (Pointwise(one) ==> p.embedding == one(item))
      ensures Filed(points + [p], items, one)
    {
    }

    /** The `k`-th batch holds the items from `k` times the batch size on, as many as that or as are left. */
    ghost predicate Batched(batches: seq<seq<Item>>, items: seq<Item>)
    {
      BatchedBy(batches, if maxBatchSize >= 1 then maxBatchSize else 1, items)
    }

    ghost predicate BatchedBy(batches: seq<seq<Item>>, size: nat, items: seq<Item>)
    {
      forall k :: 0 <= k < |batches| ==> BatchIs(batches[k], k * size, size, items)
    }

    lemma BatchAppend(batches: seq<seq<Item>>, batch: seq<Item>, size: nat, items: seq<Item>)
      requires BatchedBy(batches, size, items) && BatchIs(batch, |batches| * size, size, items)
      ensures BatchedBy(batches + [batch], size, items)
    {
      var more := batches + [batch];
      forall k | 0 <= k < |more| ensures BatchIs(more[k], k * size, size, items) {
        if k < |batches| { assert BatchIs(batches[k], k * size, size, items); }
      }
    }

    ghost predicate BatchIs(batch: seq<Item>, from: nat, size: nat, items: seq<Item>)
    {
      from < |items| && batch == if from + size <= |items| then items[from..from + size] else items[from..]
    }

    /** So many items are in the batches asked for. */
    ghost predicate Sent(batches: seq<seq<Item>>, items: seq<Item>, done: nat)
    {
      Batched(batches, items) && SentSoFar(|batches| * BatchSize(), |items|, done)
    }

    ghost predicate SentSoFar(n: int, all: nat, done: nat)
    {
      done <= all && (done < all ==> done == n) && (done == all ==> done <= n)
    }

    lemma SentNext(batches: seq<seq<Item>>, items: seq<Item>, done: nat)
      requires Sent(batches, items, done) && done < |items|
      ensures Sent(batches + [Chunk(items, done)], items, done + |Chunk(items, done)|)
    {
      OneMore(|batches|, BatchSize());
      BatchAppend(batches, Chunk(items, done), BatchSize(), items);
    }

    lemma OneMore(n: nat, size: nat)
      ensures (n + 1) * size == n * size + size
    {
    }

    function BatchSize(): nat { if maxBatchSize == 0 then 1 else maxBatchSize }

    /**
      All items or an error; nothing is written unless every item passes the checks, what is
      written is a prefix of the items in order, each with its own embedding in its own
      collection, and a complete run reports exactly what it wrote.
    */
    method Run(items: seq<Item>, ghost one: Item -> string) returns (report: Option<Report>)
      modifies this
      ensures old(index) <= index && |index| - |old(index)| <= |items|
      ensures Filed(index[|old(index)|..], items, one)
      ensures !Accepts(items) ==> report.None? && index == old(index) && asked == old(asked)
      ensures index != old(index) || report.Some? ==>
              spaceMatches && forall i :: 0 <= i < |items| ==>
                valid(items[i]) && items[i].modality in supported && items[i].modality in targets
      ensures old(asked) <= asked && Batched(asked[|old(asked)|..], items)
      ensures report.Some? ==> Sent(asked[|old(asked)|..], items, |items|)
      ensures report.None? ==> !Accepts(items) || StoppedAt(items, |index| - |old(index)|, |index|)
      ensures report.Some? ==>
                && |index| == |old(index)| + |items|
                && report.value.encoded == report.value.written == |items|
                && forall m :: Tally(report.value.byModality, m) == CountOf(items, m)
    {
      if !spaceMatches { return None; }
      var i := 0;
      while i < |items|
        invariant 0 <= i <= |items| && index == old(index) && asked == old(asked)
        invariant forall j :: 0 <= j < i ==>
                  valid(items[j]) && items[j].modality in supported && items[j].modality in targets
      {
        if !valid(items[i]) { return None; }
        if items[i].modality !in supported || items[i].modality !in targets { return None; }
        i := i + 1;
      }
      var r := Report(0, 0, map[]);
      var done := 0;
      while done < |items|
        invariant 0 <= done <= |items|
        invariant old(index) <= index && |index| == |old(index)| + done && Filed(index[|old(index)|..], items, one)
        invariant r.encoded == r.written == done
        invariant old(asked) <= asked && Sent(asked[|old(asked)|..], items, done)
        invariant Tallied(r.byModality, items, done)
        decreases |items| - done
      {
        SentNext(asked[|old(asked)|..], items, done);
        ghost var more := asked[|old(asked)|..] + [Chunk(items, done)];
        var next := EncodeChunk(items, done, r, one, |old(index)|);
        assert asked[|old(asked)|..] == more;
        if next.None? { return None; }
        r := next.value;
        done := r.written;
      }
      assert items[..done] == items;
      report := Some(r);
    }

    /** One chunk: encode it, then write its points; `start` is where this run's points begin in the index. */
    method EncodeChunk(items: seq<Item>, done: nat, report: Report, ghost one: Item -> string, ghost start: nat)
      returns (r: Option<Report>)
      requires done < |items| && Accepts(items) && report.encoded == done && Written(report, items, done, one, start)
      modifies this
      ensures old(index) <= index && asked == old(asked) + [Chunk(items, done)]
      ensures r.None? ==> Halted(items, one, start)
      ensures r.Some? ==>
              done < r.value.written == done + |Chunk(items, done)| <= |items| && r.value.encoded == r.value.written
      ensures r.Some? ==> Written(r.value, items, r.value.written, one, start)
    {
      var chunk := Chunk(items, done);
      asked := asked + [chunk];
      var embeddings := encode(chunk);
      if embeddings.None? || |embeddings.value| != |chunk| {
        assert BadChunk(items, done);
        return None;
      }
      r := WriteChunk(items, done, embeddings.value, report.(encoded := report.encoded + |chunk|), one, start);
    }

    /** `k` points of this run are written, the first at `start`, and counted. */
    ghost predicate Written(report: Report, items: seq<Item>, k: nat, one: Item -> string, start: nat)
      reads this
    {
      && |index| == start + k && Filed(index[start..], items, one)
      && report.written == k && Tallied(report.byModality, items, k)
    }

    /** What is written is in order, and there is a reason why it is not more. */
    ghost predicate Halted(items: seq<Item>, one: Item -> string, start: nat)
      reads this
    {
      start <= |index| <= start + |items| && Filed(index[start..], items, one)
      && StoppedAt(items, |index| - start, |index|)
    }

    /** Upsert one encoded chunk up to the first point that is not accepted. */
    method WriteChunk(items: seq<Item>, done: nat, embeddings: seq<string>, report: Report,
      ghost one: Item -> string, ghost start: nat)
      returns (r: Option<Report>)
      requires done < |items| && encode(Chunk(items, done)) == Some(embeddings)
      requires |embeddings| == |Chunk(items, done)| && done + |embeddings| <= |items|
      requires Accepts(items) && Written(report, items, done, one, start)
      modifies this`index
      ensures old(index) <= index
      ensures r.None? ==> Halted(items, one, start)
      ensures r.Some? ==> r.value.encoded == report.encoded && Written(r.value, items, done + |embeddings|, one, start)
    {
      var k := done;
      r := Some(report);
      while k < done + |embeddings|
        invariant done <= k <= done + |embeddings| && old(index) <= index
        invariant r.Some? && r.value.encoded == report.encoded && Written(r.value, items, k, one, start)
      {
        r := WriteNext(items, done, k, embeddings, r.value, one, start);
        if r.None? { return; }
        k := k + 1;
      }
    }

    /** Upsert one point, if it is accepted. */
    method WriteNext(items: seq<Item>, done: nat, k: nat, embeddings: seq<string>, report: Report,
      ghost one: Item -> string, ghost start: nat)
      returns (r: Option<Report>)
      requires done <= k < |items| && encode(Chunk(items, done)) == Some(embeddings)
      requires |embeddings| == |Chunk(items, done)| && k < done + |embeddings|
      requires Accepts(items) && Written(report, items, k, one, start)
      modifies this`index
      ensures old(index) <= index
      ensures r.None? ==> Halted(items, one, start)
      ensures r.Some? ==> r.value.encoded == report.encoded && Written(r.value, items, k + 1, one, start)
    {
      var point := Point(targets[items[k].modality], items[k].uri, embeddings[k - done]);
      PointIs(items, done, k, embeddings, one);
      if !stores(|index|, point) {
        StopsAt(items, done, k, |index|);
        return None;
      }
      FiledOne(index[start..], point, items, one);
      TallyOne(items, k, report.byModality);
      assert (index + [point])[start..] == index[start..] + [point];
      index := index + [point];
      r := Some(report.(written := report.written + 1, byModality := Bump(report.byModality, items[k].modality)));
    }

    lemma PointIs(items: seq<Item>, done: nat, k: nat, embeddings: seq<string>, one: Item -> string)
      requires done <= k < |items| && encode(Chunk(items, done)) == Some(embeddings)
      requires |embeddings| == |Chunk(items, done)| && k - done < |embeddings| && Accepts(items)
      ensures PointOf(items, done, k) == Some(Point(targets[items[k].modality], items[k].uri, embeddings[k - done]))
      ensures Pointwise(one) ==> embeddings[k - done] == one(items[k])
    {
      assert Chunk(items, done)[k - done] == items[k];
    }

    lemma StopsAt(items: seq<Item>, done: nat, k: nat, at: nat)
      requires done <= k < |items| && PointOf(items, done, k).Some? && !stores(at, PointOf(items, done, k).value)
      ensures StoppedAt(items, k, at)
    {
      assert Unaccepted(items, done, k, at);
    }
  }
}
