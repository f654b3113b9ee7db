/**
  What admission and shutdown can always get done: a refused request leaves no trace, every
  counted request can be released, and every shutdown caller can be brought to its end.
*/
module AdmissionProgress {
  import opened Admission

  // ------------------------------------------------------------------ requests

  /** The flag closed between the two loads of a request: it is refused, and leaves the counter as it was. */
  lemma RefusedLeavesNoTrace(s: State, r: nat, c: nat, guards: nat)
    requires Inv(s, guards) && s.accepting && r !in s.requests && Is(s, c, Called)
    ensures Run(s, [Arrive(r), Load(r), FetchAdd(r), Close(c), Load(r), FetchSub(r)], guards)
            == State(false, s.inFlight, s.requests[r := Left], s.shutdowns[c := Draining], s.lock, s.result, s.pass,
                     s.calls, s.drainedOnce)
  {
    var acts := [Arrive(r), Load(r), FetchAdd(r), Close(c), Load(r), FetchSub(r)];
    var counted := s.(requests := s.requests[r := Counted], inFlight := s.inFlight + 1);
    CountedIn(s, r, acts, guards);
    var closed := counted.(accepting := false, shutdowns := s.shutdowns[c := Draining]);
    assert Step(counted, acts[3], guards) == closed;
    assert acts[3..][0] == acts[3] && acts[3..][1..] == acts[4..];
    var refused := closed.(requests := s.requests[r := Refused]);
    assert Step(closed, acts[4], guards) == refused;
    TwoSteps(closed, acts[4..], refused, refused.(requests := s.requests[r := Left], inFlight := s.inFlight), guards);
  }

  /** The first three steps of a request that finds the flag open. */
  lemma CountedIn(s: State, r: nat, acts: seq<Action>, guards: nat)
    requires s.accepting && r !in s.requests && [Arrive(r), Load(r), FetchAdd(r)] <= acts
    ensures Run(s, acts, guards)
            == Run(s.(requests := s.requests[r := Counted], inFlight := s.inFlight + 1), acts[3..], guards)
  {
    var arrived, checked := s.(requests := s.requests[r := Arrived]), s.(requests := s.requests[r := Checked]);
    TwoSteps(s, acts, arrived, checked, guards);
    assert acts[2..][0] == acts[2] && acts[2..][1..] == acts[3..];
    assert Step(checked, acts[2], guards) == s.(requests := s.requests[r := Counted], inFlight := s.inFlight + 1);
  }

  lemma TwoSteps(s: State, acts: seq<Action>, t: State, u: State, guards: nat)
    requires |acts| >= 2 && Step(s, acts[0], guards) == t && Step(t, acts[1], guards) == u
    ensures Run(s, acts, guards) == Run(u, acts[2..], guards)
  {
    assert acts[1..][0] == acts[1] && acts[1..][1..] == acts[2..];
  }

  /** Past its second load a request takes one from the counter and leaves, admitted or not; before it cannot. */
  lemma ReleaseTakesOne(s: State, r: nat, guards: nat)
    requires Inv(s, guards)
    ensures var t := Step(s, FetchSub(r), guards);
            if r in s.requests && (s.requests[r].Refused? || s.requests[r].Running?) then
              s.inFlight > 0 && t == s.(requests := s.requests[r := Left], inFlight := s.inFlight - 1)
            else t == s
  {
    if r in s.requests { CountMoves(s.requests, r, Left); }
  }

  /** Nobody new comes, and nobody gives up. */
  predicate Orderly(acts: seq<Action>) { forall a :: a in acts ==> !a.Abandon? && !a.Arrive? && !a.CallShutdown? }

  predicate Releases(acts: seq<Action>) { forall a :: a in acts ==> a.Load? || a.FetchSub? }

  lemma ReleaseOne(s: State, r: nat, guards: nat) returns (acts: seq<Action>)
    requires Inv(s, guards) && r in InFlight(s.requests)
    ensures Releases(acts) && s.inFlight > 0
    ensures Run(s, acts, guards) == s.(requests := s.requests[r := Left], inFlight := s.inFlight - 1)
  {
    if s.requests[r].Counted? {
      var t := Step(s, Load(r), guards);
      StepKeeps(s, Load(r), guards);
      ReleaseTakesOne(t, r, guards);
      acts := [Load(r), FetchSub(r)];
      TwoSteps(s, acts, t, Step(t, FetchSub(r), guards), guards);
    } else {
      ReleaseTakesOne(s, r, guards);
      acts := [FetchSub(r)];
    }
  }

  /** Every request that is counted can load and leave, and then the counter is zero. */
  lemma ReleaseAll(s: State, guards: nat) returns (acts: seq<Action>)
    requires Inv(s, guards)
    ensures Releases(acts)
    ensures var t := Run(s, acts, guards); t == s.(requests := t.requests, inFlight := 0) && Inv(t, guards)
    decreases s.inFlight
  {
    if s.inFlight == 0 {
      acts := [];
    } else {
      assert InFlight(s.requests) != {};
      var r :| r in InFlight(s.requests);
      var first := ReleaseOne(s, r, guards);
      RunKeeps(s, first, guards);
      var rest := ReleaseAll(Run(s, first, guards), guards);
      RunAppend(s, first, rest, guards);
      acts := first + rest;
    }
  }

  /** So a caller that is draining reads zero once they have. */
  lemma DrainReadsZero(s: State, c: nat, guards: nat) returns (acts: seq<Action>)
    requires Inv(s, guards) && Is(s, c, Draining)
    ensures Releases(acts)
    ensures var t := Run(s, acts, guards);
            t.inFlight == 0 && Is(t, c, Draining) && Is(Step(t, Poll(c), guards), c, Drained)
  {
    acts := ReleaseAll(s, guards);
  }

  // ------------------------------------------------------------------ shutdown callers

  /** From inside the lock a caller gets out of it with success, if its guards do their part. */
  lemma GetsOut(s: State, c: nat, guards: nat) returns (acts: seq<Action>)
    requires Inv(s, guards) && c in s.shutdowns && HoldsLock(s.shutdowns[c])
    ensures var t := Run(s, acts, guards);
            && Inv(t, guards) && t.shutdowns == s.shutdowns[c := Returned(true)] && t.lock == {} && t.result.AllShut?
            && t.inFlight == s.inFlight && t.requests == s.requests
    ensures Orderly(acts)
    decreases if s.shutdowns[c].Locked? then guards + 1 else guards - s.shutdowns[c].next
  {
    assert c in s.lock;
    forall d | d in s.lock ensures d == c { OneHolder(s.lock, c, d); }
    var a := if s.shutdowns[c].Locked? then Inspect(c)
             else if s.shutdowns[c].next < guards then Guard(c, true) else Finish(c);
    var t := Step(s, a, guards);
    StepKeeps(s, a, guards);
    if t.shutdowns[c].Returned? {
      acts := [a];
    } else {
      var rest := GetsOut(t, c, guards);
      acts := [a] + rest;
      assert t.shutdowns[c := Returned(true)] == s.shutdowns[c := Returned(true)];
    }
  }

  /** A drained caller gets the lock, if need be after its holder, and gets out. */
  lemma GetsIn(s: State, c: nat, guards: nat) returns (acts: seq<Action>)
    requires Inv(s, guards) && Is(s, c, Drained)
    ensures Is(Run(s, acts, guards), c, Returned(true)) && Orderly(acts)
  {
    var t, first := s, [];
    if s.lock != {} {
      var d :| d in s.lock;
      first := GetsOut(s, d, guards);
      t := Run(s, first, guards);
    }
    var u := Step(t, Acquire(c), guards);
    StepKeeps(t, Acquire(c), guards);
    var last := GetsOut(u, c, guards);
    acts := first + ([Acquire(c)] + last);
    RunAppend(s, first, [Acquire(c)] + last, guards);
    assert ([Acquire(c)] + last)[1..] == last;
  }

  /**
    Shutdown never gets stuck: from every reachable state every caller that has not returned can
    be brought to success by requests leaving, lock holders finishing, and its own steps.
  */
  lemma ShutdownCanFinish(before: seq<Action>, c: nat, guards: nat) returns (acts: seq<Action>)
    requires var s := Run(FRESH, before, guards); c in s.shutdowns && !s.shutdowns[c].Returned?
    ensures Is(Run(Run(FRESH, before, guards), acts, guards), c, Returned(true))
    ensures Orderly(acts)
  {
    assert InFlight(FRESH.requests) == {};
    RunKeeps(FRESH, before, guards);
    acts := CanFinish(Run(FRESH, before, guards), c, guards);
  }

  /** How far a caller is from the lock. */
  function Steps(place: Shutdown): nat
  {
    match place case Called => 3 case Waiting => 2 case Draining => 1 case _ => 0
  }

  lemma ComesNearer(s: State, c: nat, guards: nat) returns (acts: seq<Action>)
    requires Inv(s, guards) && c in s.shutdowns && Steps(s.shutdowns[c]) > 0
    ensures Orderly(acts)
    ensures var t := Run(s, acts, guards);
            Inv(t, guards) && c in t.shutdowns && !t.shutdowns[c].Returned?
              && Steps(t.shutdowns[c]) < Steps(s.shutdowns[c])
  {
    if s.shutdowns[c].Draining? {
      var first := DrainReadsZero(s, c, guards);
      acts := first + [Poll(c)];
      RunMore(s, first, Poll(c), guards);
    } else {
      acts := [if s.shutdowns[c].Called? then Close(c) else Wake(c)];
      assert Run(s, acts, guards) == Step(s, acts[0], guards);
    }
    RunKeeps(s, acts, guards);
  }

  lemma CanFinish(s: State, c: nat, guards: nat) returns (acts: seq<Action>)
    requires Inv(s, guards) && c in s.shutdowns && !s.shutdowns[c].Returned?
    ensures Is(Run(s, acts, guards), c, Returned(true)) && Orderly(acts)
    decreases Steps(s.shutdowns[c])
  {
    if HoldsLock(s.shutdowns[c]) {
      acts := GetsOut(s, c, guards);
    } else if s.shutdowns[c].Drained? {
      acts := GetsIn(s, c, guards);
    } else {
      var first := ComesNearer(s, c, guards);
      var rest := CanFinish(Run(s, first, guards), c, guards);
      RunAppend(s, first, rest, guards);
      acts := first + rest;
    }
  }

  /** A dropped shutdown call is gone, and with it its hold on the lock; it opens nothing again and undoes nothing. */
  lemma DroppedLetsGo(s: State, c: nat, guards: nat)
    requires Inv(s, guards)
    ensures var t := Step(s, Abandon(c), guards);
            && c !in t.shutdowns && c !in t.lock && t.shutdowns == s.shutdowns - {c} && t.lock == s.lock - {c}
            && t.accepting == s.accepting && t.requests == s.requests && t.inFlight == s.inFlight
            && t.result == s.result && t.pass == s.pass && t.calls == s.calls
  {
    if c !in s.shutdowns { assert c !in s.lock && s.shutdowns - {c} == s.shutdowns && s.lock - {c} == s.lock; }
  }
}
