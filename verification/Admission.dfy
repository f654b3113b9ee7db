/**
  Admission and shutdown: requests counting themselves in and out around two loads of the
  `accepting` flag, and shutdown callers that close the flag, wait for the counter to read
  zero and run the runtime guards under a lock.

  Any number of requests and shutdown callers interleave atomic steps; a shutdown caller may be
  dropped at any await, and a waiting one may wake at any time, so lost and spurious wake-ups
  are both covered.
*/
module Admission {

  /** A request inside `timed`. */
  datatype Request =
    | Arrived       // nothing loaded yet
    | Checked       // the first load saw `accepting`
    | Counted       // past fetch_add, before the second load
    | Refused       // the second load saw the flag closed; still counted
    | Running       // admitted: the operation's future is being polled
    | Left          // released, or never admitted

  datatype Shutdown =
    | Called
    | Draining      // flag closed; about to load the counter
    | Waiting       // the counter was not zero
    | Drained       // read zero; waiting for the lock
    | Locked        // about to look at the stored result
    | Guarding(next: nat)
    | Returned(ok: bool)

  datatype Outcome = NoResult | AllShut | GuardFailed

  datatype State = State(
    accepting: bool,
    inFlight: nat,
    requests: map<nat, Request>,
    shutdowns: map<nat, Shutdown>,
    lock: set<nat>,           // the holder of `shutdown_lock`, if any
    result: Outcome,
    pass: seq<nat>,           // guards shut by the pass in progress or last finished
    calls: nat,               // guard calls ever made
    drainedOnce: bool)        // history: some drain loop has read zero

  datatype Action =
    | Arrive(r: nat)
    | Load(r: nat)            // either load of `accepting`
    | FetchAdd(r: nat)
    | FetchSub(r: nat)        // refusal, or the guard being dropped
    | CallShutdown(c: nat)
    | Close(c: nat)
    | Poll(c: nat)            // the drain loop's load of the counter
    | Wake(c: nat)
    | Acquire(c: nat)
    | Inspect(c: nat)
    | Guard(c: nat, ok: bool) // one guard's `shutdown`
    | Finish(c: nat)
    | Abandon(c: nat)         // the shutdown future is dropped at an await

  function StepRequest(s: State, a: Action): State
    requires a.Arrive? || a.Load? || a.FetchAdd? || a.FetchSub?
  {
    match a
    case Arrive(r) => if r in s.requests then s else s.(requests := s.requests[r := Arrived])
    case Load(r) =>
      if r !in s.requests then s
      else if s.requests[r].Arrived? then s.(requests := s.requests[r := if s.accepting then Checked else Left])
      else if s.requests[r].Counted? then s.(requests := s.requests[r := if s.accepting then Running else Refused])
      else s
    case FetchAdd(r) =>
      if r in s.requests && s.requests[r].Checked? then
        s.(requests := s.requests[r := Counted], inFlight := s.inFlight + 1)
      else s
    case FetchSub(r) =>
      if r in s.requests && (s.requests[r].Refused? || s.requests[r].Running?) && s.inFlight > 0 then
        s.(requests := s.requests[r := Left], inFlight := s.inFlight - 1)
      else s
  }

  function At(s: State, c: nat, place: Shutdown): State { s.(shutdowns := s.shutdowns[c := place]) }

  predicate Is(s: State, c: nat, place: Shutdown) { c in s.shutdowns && s.shutdowns[c] == place }

  function StepShutdown(s: State, a: Action, guards: nat): State
    requires !(a.Arrive? || a.Load? || a.FetchAdd? || a.FetchSub?)
  {
    match a
    case CallShutdown(c) => if c in s.shutdowns then s else At(s, c, Called)
    case Close(c) => if Is(s, c, Called) then At(s.(accepting := false), c, Draining) else s
    case Poll(c) =>
      if !Is(s, c, Draining) then s
      else if s.inFlight == 0 then At(s.(drainedOnce := true), c, Drained)
      else At(s, c, Waiting)
    case Wake(c) => if Is(s, c, Waiting) then At(s, c, Draining) else s
    case Acquire(c) => if Is(s, c, Drained) && s.lock == {} then At(s.(lock := {c}), c, Locked) else s
    case Inspect(c) =>
      if !Is(s, c, Locked) then s
      else if s.result.AllShut? then At(s.(lock := {}), c, Returned(true))
      else At(s.(pass := []), c, Guarding(0))
    case Guard(c, ok) =>
      if c !in s.shutdowns || !s.shutdowns[c].Guarding? || s.shutdowns[c].next >= guards then s
      else
        var i := s.shutdowns[c].next;
        if ok then At(s.(pass := s.pass + [i], calls := s.calls + 1), c, Guarding(i + 1))
        else At(s.(result := GuardFailed, calls := s.calls + 1, lock := {}), c, Returned(false))
    case Finish(c) =>
      if c !in s.shutdowns || !s.shutdowns[c].Guarding? || s.shutdowns[c].next < guards then s
      else At(s.(result := AllShut, lock := {}), c, Returned(true))
    case Abandon(c) =>
      if c !in s.shutdowns then s
      else s.(shutdowns := s.shutdowns - {c}, lock := s.lock - {c})
    case _ => s
  }

  function Step(s: State, a: Action, guards: nat): State
  {
    if a.Arrive? || a.Load? || a.FetchAdd? || a.FetchSub? then StepRequest(s, a) else StepShutdown(s, a, guards)
  }

  function Run(s: State, acts: seq<Action>, guards: nat): State
    decreases |acts|
  {
    if acts == [] then s else Run(Step(s, acts[0], guards), acts[1..], guards)
  }

  const FRESH := State(true, 0, map[], map[], {}, NoResult, [], 0, false)

  // ------------------------------------------------------------------ the invariant

  /** The requests past the increment and not yet released. */
  function InFlight(requests: map<nat, Request>): set<nat>
  {
    set r | r in requests && (requests[r].Counted? || requests[r].Refused? || requests[r].Running?)
  }

  predicate HoldsLock(place: Shutdown) { place.Locked? || place.Guarding? }

  /** The guards of one pass, in order. */
  function UpTo(n: nat): (r: seq<nat>)
    ensures |r| == n && forall i :: 0 <= i < n ==> r[i] == i
  {
    seq(n, i => i)
  }

  ghost predicate Inv(s: State, guards: nat)
  {
    && s.inFlight == |InFlight(s.requests)|
    && (forall c :: c in s.shutdowns && !s.shutdowns[c].Called? ==> !s.accepting)
    && (s.drainedOnce ==> !s.accepting)
    && (s.drainedOnce ==> forall r :: r in s.requests ==> !s.requests[r].Running?)
    && (forall c :: c in s.shutdowns && (s.shutdowns[c].Drained? || HoldsLock(s.shutdowns[c])) ==> s.drainedOnce)
    && (!s.result.NoResult? ==> s.drainedOnce)
    && |s.lock| <= 1
    && (forall c :: c in s.lock <==> c in s.shutdowns && HoldsLock(s.shutdowns[c]))
    && (forall c :: c in s.shutdowns && s.shutdowns[c].Guarding? ==>
          !s.result.AllShut? && s.shutdowns[c].next <= guards && s.pass == UpTo(s.shutdowns[c].next))
    && (s.result.AllShut? ==> s.pass == UpTo(guards))
    && (s.calls > 0 ==> s.drainedOnce)
    && (forall c :: c in s.shutdowns && s.shutdowns[c] == Returned(true) ==> s.result.AllShut?)
  }

  lemma CountMoves(requests: map<nat, Request>, r: nat, next: Request)
    ensures var now, was := InFlight(requests[r := next]), InFlight(requests);
            && (r !in was && next.Counted? ==> |now| == |was| + 1)
            && (r in was && next.Left? ==> |was| > 0 && |now| == |was| - 1)
            && (r in was && (next.Running? || next.Refused?) ==> now == was)
            && (r !in was && (next.Arrived? || next.Checked? || next.Left?) ==> now == was)
  {
    var now, was := InFlight(requests[r := next]), InFlight(requests);
    if r !in was && next.Counted? { assert now == was + {r}; }
    if r in was && next.Left? { assert now == was - {r}; }
    if r in was && (next.Running? || next.Refused?) { assert now == was; }
    if r !in was && (next.Arrived? || next.Checked? || next.Left?) { assert now == was; }
  }

  lemma RequestKeeps(s: State, a: Action, guards: nat)
    requires Inv(s, guards) && (a.Arrive? || a.Load? || a.FetchAdd? || a.FetchSub?)
    ensures Inv(StepRequest(s, a), guards)
  {
    var t := StepRequest(s, a);
    if a.r in t.requests { CountMoves(s.requests, a.r, t.requests[a.r]); }
  }

  lemma OneHolder(lock: set<nat>, c: nat, d: nat)
    requires |lock| <= 1 && c in lock && d in lock
    ensures c == d
  {
    if c != d { assert |lock - {c}| > 0 by { assert d in lock - {c}; } }
  }

  predicate RequestAction(a: Action) { a.Arrive? || a.Load? || a.FetchAdd? || a.FetchSub? }

  predicate LockAction(a: Action) { a.Inspect? || a.Guard? || a.Finish? }

  lemma DrainKeeps(s: State, a: Action, guards: nat)
    requires Inv(s, guards) && (a.CallShutdown? || a.Close? || a.Poll? || a.Wake?)
    ensures Inv(StepShutdown(s, a, guards), guards)
  {
    if a.Poll? && s.inFlight == 0 {
      forall r | r in s.requests ensures !s.requests[r].Running? {
        assert r !in InFlight(s.requests);
      }
    }
  }

  lemma AcquireKeeps(s: State, c: nat, guards: nat)
    requires Inv(s, guards)
    ensures Inv(StepShutdown(s, Acquire(c), guards), guards)
  {
  }

  lemma AbandonKeeps(s: State, c: nat, guards: nat)
    requires Inv(s, guards)
    ensures Inv(StepShutdown(s, Abandon(c), guards), guards)
  {
  }

  /** The caller inside the lock is the only one there. */
  lemma LockKeeps(s: State, a: Action, guards: nat)
    requires Inv(s, guards) && LockAction(a)
    ensures Inv(StepShutdown(s, a, guards), guards)
  {
    if a.c in s.shutdowns && HoldsLock(s.shutdowns[a.c]) {
      forall d | d in s.lock ensures d == a.c { OneHolder(s.lock, a.c, d); }
    }
  }

  lemma StepKeeps(s: State, a: Action, guards: nat)
    requires Inv(s, guards)
    ensures Inv(Step(s, a, guards), guards)
  {
    if RequestAction(a) { RequestKeeps(s, a, guards); }
    else if LockAction(a) { LockKeeps(s, a, guards); }
    else if a.Acquire? { AcquireKeeps(s, a.c, guards); }
    else if a.Abandon? { AbandonKeeps(s, a.c, guards); }
    else { DrainKeeps(s, a, guards); }
  }

  lemma {:induction false} RunKeeps(s: State, acts: seq<Action>, guards: nat)
    requires Inv(s, guards)
    ensures Inv(Run(s, acts, guards), guards)
    decreases |acts|
  {
    if acts != [] {
      StepKeeps(s, acts[0], guards);
      RunKeeps(Step(s, acts[0], guards), acts[1..], guards);
    }
  }

  // ------------------------------------------------------------------ what it means

  /** In every reachable state the counter is the number of requests between their increment and their release. */
  lemma CounterIsExact(acts: seq<Action>, guards: nat)
    ensures var s := Run(FRESH, acts, guards); s.inFlight == |InFlight(s.requests)|
  {
    assert InFlight(FRESH.requests) == {};
    RunKeeps(FRESH, acts, guards);
  }

  /**
    After a drain loop has read zero nothing runs, however the system goes on; in particular no guard
    is ever called beside a running request.
  */
  lemma NothingRunsAfterDrain(acts: seq<Action>, later: seq<Action>, guards: nat)
    requires Run(FRESH, acts, guards).drainedOnce
    ensures var t := Run(Run(FRESH, acts, guards), later, guards);
            t.drainedOnce && !t.accepting && forall r :: r in t.requests ==> !t.requests[r].Running?
  {
    assert InFlight(FRESH.requests) == {};
    RunKeeps(FRESH, acts, guards);
    DrainedStays(Run(FRESH, acts, guards), later, guards);
  }

  lemma {:induction false} DrainedStays(s: State, acts: seq<Action>, guards: nat)
    requires Inv(s, guards) && s.drainedOnce
    ensures var t := Run(s, acts, guards);
            t.drainedOnce && !t.accepting && forall r :: r in t.requests ==> !t.requests[r].Running?
    decreases |acts|
  {
    if acts != [] {
      StepKeeps(s, acts[0], guards);
      DrainedStays(Step(s, acts[0], guards), acts[1..], guards);
    }
  }

  /** A guard is only ever called after a drain, by the one caller that holds the lock, and in order. */
  lemma GuardsAreSerial(acts: seq<Action>, c: nat, d: nat, guards: nat)
    requires var s := Run(FRESH, acts, guards);
             c in s.shutdowns && d in s.shutdowns && HoldsLock(s.shutdowns[c]) && HoldsLock(s.shutdowns[d])
    ensures var s := Run(FRESH, acts, guards);
            && c == d && s.drainedOnce
            && (s.shutdowns[c].Guarding? ==> s.pass == UpTo(s.shutdowns[c].next))
  {
    assert InFlight(FRESH.requests) == {};
    RunKeeps(FRESH, acts, guards);
    OneHolder(Run(FRESH, acts, guards).lock, c, d);
  }

  /** Once a pass has shut every guard, the result stays and no guard is called again. */
  lemma {:induction false} ShutOnce(s: State, acts: seq<Action>, guards: nat)
    requires Inv(s, guards) && s.result.AllShut?
    ensures var t := Run(s, acts, guards);
            t.result.AllShut? && t.calls == s.calls && t.pass == UpTo(guards)
    decreases |acts|
  {
    if acts != [] {
      StepKeeps(s, acts[0], guards);
      ShutOnce(Step(s, acts[0], guards), acts[1..], guards);
    }
  }

  /** A caller that is told the shutdown succeeded can rely on it: every guard was shut, in order. */
  lemma SuccessMeansAllShut(acts: seq<Action>, c: nat, guards: nat)
    requires Is(Run(FRESH, acts, guards), c, Returned(true))
    ensures var s := Run(FRESH, acts, guards); s.result.AllShut? && s.pass == UpTo(guards)
  {
    assert InFlight(FRESH.requests) == {};
    RunKeeps(FRESH, acts, guards);
  }

  // ------------------------------------------------------------------ undisturbed calls, as runs of the machine

  lemma RunMore(s: State, acts: seq<Action>, a: Action, guards: nat)
    ensures Run(s, acts + [a], guards) == Step(Run(s, acts, guards), a, guards)
    decreases |acts|
  {
    if acts == [] {
      assert [] + [a] == [a];
      assert Run(s, [a], guards) == Run(Step(s, a, guards), [], guards);
    } else {
      assert (acts + [a])[0] == acts[0] && (acts + [a])[1..] == acts[1..] + [a];
      RunMore(Step(s, acts[0], guards), acts[1..], a, guards);
    }
  }

  lemma RunAppend(s: State, acts: seq<Action>, more: seq<Action>, guards: nat)
    ensures Run(s, acts + more, guards) == Run(Run(s, acts, guards), more, guards)
    decreases |acts|
  {
    if acts == [] {
      assert [] + more == more;
    } else {
      assert (acts + more)[0] == acts[0] && (acts + more)[1..] == acts[1..] + more;
      RunAppend(Step(s, acts[0], guards), acts[1..], more, guards);
    }
  }

  /** Each call replays its atomic steps in order, with no other step in between. */
  class Facade {
    const guards: nat
    var s: State

    constructor (guards: nat)
      ensures this.guards == guards && s == FRESH && Inv(s, guards)
    {
      this.guards, s := guards, FRESH;
      assert InFlight(FRESH.requests) == {};
    }

    method Take(ghost start: State, ghost trace: seq<Action>, a: Action) returns (ghost longer: seq<Action>)
      requires s == Run(start, trace, guards)
      modifies this
      ensures s == Step(old(s), a, guards)
      ensures longer == trace + [a] && s == Run(start, longer, guards)
    {
      longer := trace + [a];
      RunMore(start, trace, a, guards);
      s := Step(s, a, guards);
    }

    /** `admit`, with nobody in between: a request is counted exactly when it is let in. */
    method Admit(r: nat) returns (admitted: bool, ghost trace: seq<Action>)
      requires Inv(s, guards) && r !in s.requests
      modifies this
      ensures s == Run(old(s), trace, guards) && Inv(s, guards)
      ensures admitted <==> old(s).accepting
      ensures s == old(s).(requests := old(s).requests[r := if admitted then Running else Left],
                           inFlight := old(s).inFlight + if admitted then 1 else 0)
    {
      ghost var start := s;
      trace := [];
      admitted := false;
      trace := Take(start, trace, Arrive(r));
      trace := Take(start, trace, Load(r));
      if s.requests[r].Checked? {
        trace := Take(start, trace, FetchAdd(r));
        trace := Take(start, trace, Load(r));
        admitted := s.requests[r].Running?;
      }
      assert s.requests == start.requests[r := if admitted then Running else Left];
      RunKeeps(start, trace, guards);
    }

    /** Dropping the guard of an admitted request. */
    method Release(r: nat)
      requires Inv(s, guards) && r in s.requests && s.requests[r].Running?
      modifies this
      ensures Inv(s, guards) && s.inFlight + 1 == old(s).inFlight
      ensures s == old(s).(requests := old(s).requests[r := Left], inFlight := s.inFlight)
    {
      assert r in InFlight(s.requests);
      RequestKeeps(s, FetchSub(r), guards);
      ghost var _ := Take(s, [], FetchSub(r));
    }

    /**
      `shutdown` with nothing in flight and the lock free: `outcome(i)` is how guard `i` answers.
      It succeeds exactly when an earlier pass did or every guard answers, and a failing guard
      is the last one called.
    */
    method Shutdown(c: nat, outcome: nat -> bool) returns (ok: bool, ghost trace: seq<Action>)
      requires Inv(s, guards) && c !in s.shutdowns && s.inFlight == 0 && s.lock == {}
      modifies this
      ensures s == Run(old(s), trace, guards) && Inv(s, guards) && !s.accepting && s.lock == {}
      ensures ok <==> old(s).result.AllShut? || forall i :: 0 <= i < guards ==> outcome(i)
      ensures old(s).result.AllShut? ==> s.calls == old(s).calls
      ensures !old(s).result.AllShut? && ok ==> s.calls == old(s).calls + guards && s.pass == UpTo(guards)
      ensures !ok ==> s.calls == old(s).calls + |s.pass| + 1 && |s.pass| < guards && !outcome(|s.pass|)
                      && s.pass == UpTo(|s.pass|) && forall i :: 0 <= i < |s.pass| ==> outcome(i)
    {
      ghost var start := s;
      trace := EnterShutdown(c);
      ok := true;
      if s.shutdowns[c].Guarding? {
        ghost var more;
        ok, more := ShutGuards(c, outcome);
        RunAppend(start, trace, more, guards);
        trace := trace + more;
      }
      RunKeeps(start, trace, guards);
    }

    /** The guard loop inside the lock. */
    method ShutGuards(c: nat, outcome: nat -> bool) returns (ok: bool, ghost trace: seq<Action>)
      requires Is(s, c, Guarding(0)) && !s.accepting && s.lock == {c} && s.pass == []
      modifies this
      ensures s == Run(old(s), trace, guards) && !s.accepting && s.lock == {}
      ensures ok <==> forall i :: 0 <= i < guards ==> outcome(i)
      ensures s.calls == old(s).calls + |s.pass| + (if ok then 0 else 1)
      ensures s.pass == UpTo(|s.pass|) && (if ok then |s.pass| == guards else |s.pass| < guards && !outcome(|s.pass|))
      ensures forall i :: 0 <= i < |s.pass| ==> outcome(i)
    {
      ghost var start := s;
      trace := [];
      var i := 0;
      while i < guards
        invariant 0 <= i <= guards && Is(s, c, Guarding(i)) && !s.accepting && s.lock == {c}
        invariant forall j :: 0 <= j < i ==> outcome(j)
        invariant s.calls == old(s).calls + i && s.pass == UpTo(i)
        invariant s == Run(start, trace, guards)
      {
        trace := Take(start, trace, Guard(c, outcome(i)));
        if !outcome(i) { ok := false; return; }
        i := i + 1;
        assert s.pass == UpTo(i);
      }
      trace := Take(start, trace, Finish(c));
      ok := true;
    }

    /** Close the flag, find nothing in flight, take the lock and look at the stored result. */
    method EnterShutdown(c: nat) returns (ghost trace: seq<Action>)
      requires c !in s.shutdowns && s.inFlight == 0 && s.lock == {}
      modifies this
      ensures s == Run(old(s), trace, guards) && !s.accepting && s.calls == old(s).calls
      ensures if old(s).result.AllShut? then Is(s, c, Returned(true)) && s.lock == {}
              else Is(s, c, Guarding(0)) && s.lock == {c} && s.pass == []
    {
      ghost var start := s;
      trace := [];
      trace := Take(start, trace, CallShutdown(c));
      trace := Take(start, trace, Close(c));
      trace := Take(start, trace, Poll(c));
      trace := Take(start, trace, Acquire(c));
      trace := Take(start, trace, Inspect(c));
    }
  }
}
