/**
  The table that ties conflict sessions to tenants: entries expire, and an eviction queue is
  meant to keep the table at its cap.

  As written, `bind` queues the new id and then filters the queue by the ids already in the
  table, so the queue is always empty and the eviction loop spins for ever once it is entered.
  The intended order filters first and queues afterwards.
*/
module Bindings {
  import opened Prelude

  datatype Id = Id(text: string)
  datatype Tenant = Tenant(name: string)

  const MAX_BINDINGS := 4096

  datatype Binding = Binding(tenant: Tenant, seen: int)
  datatype Table = Table(tenants: map<Id, Binding>, order: seq<Id>)

  const EMPTY := Table(map[], [])

  /** A conflict session, with the tenants of its scope and of the URIs in conflict. */
  datatype Session = Session(id: Id, scope: Tenant, conflicts: seq<Tenant>)

  datatype Outcome = Refused | Kept | Spins

  function Live(tenants: map<Id, Binding>, now: int, ttl: nat): map<Id, Binding>
  {
    map id | id in tenants && now - tenants[id].seen <= ttl :: tenants[id]
  }

  function Retain(order: seq<Id>, keep: set<Id>): (r: seq<Id>)
    ensures forall x :: x in r <==> x in order && x in keep
  {
    if order == [] then []
    else if order[0] in keep then [order[0]] + Retain(order[1..], keep)
    else Retain(order[1..], keep)
  }

  lemma {:induction false} RetainDistinct(order: seq<Id>, keep: set<Id>)
    requires Distinct(order)
    ensures Distinct(Retain(order, keep))
  {
    if order != [] {
      RetainDistinct(order[1..], keep);
    }
  }

  /** The eviction loop; `None` when it can never end. */
  function Evict(tenants: map<Id, Binding>, order: seq<Id>, cap: nat): Option<Table>
    decreases |order|
  {
    if |tenants| <= cap then Some(Table(tenants, order))
    else if order == [] then None
    else Evict(tenants - {order[0]}, order[1..], cap)
  }

  function BindAsWritten(t: Table, id: Id, tenant: Tenant, now: int, ttl: nat, cap: nat): Option<Table>
  {
    var queued := if id in t.tenants then t.order else t.order + [id];
    var live := Live(t.tenants, now, ttl);
    Evict(live[id := Binding(tenant, now)], Retain(queued, live.Keys), cap)
  }

  function BindIntended(t: Table, id: Id, tenant: Tenant, now: int, ttl: nat, cap: nat): Option<Table>
  {
    var live := Live(t.tenants, now, ttl);
    var kept := Retain(t.order, live.Keys);
    Evict(live[id := Binding(tenant, now)], if id in live then kept else kept + [id], cap)
  }

  function Forget(t: Table, id: Id): Table { t.(tenants := t.tenants - {id}) }

  predicate Owns(t: Table, id: Id, tenant: Tenant, now: int, ttl: nat)
  {
    id in t.tenants && t.tenants[id].tenant == tenant && now - t.tenants[id].seen <= ttl
  }

  // ------------------------------------------------------------------ the calls as they are written

  class ConflictSessions {
    var tenants: map<Id, Binding>
    var order: seq<Id>
    const ttl: nat

    constructor (ttl: nat)
      ensures Contents() == EMPTY && this.ttl == ttl
    {
      tenants, order, this.ttl := map[], [], ttl;
    }

    function Contents(): Table
      reads this
    {
      Table(tenants, order)
    }

    /** `spins` says that the call never returns: the eviction loop is entered and has nothing to pop. */
    method Bind(id: Id, tenant: Tenant, now: int) returns (spins: bool)
      modifies this
      ensures spins <==> BindAsWritten(old(Contents()), id, tenant, now, ttl, MAX_BINDINGS).None?
      ensures !spins ==> Contents() == BindAsWritten(old(Contents()), id, tenant, now, ttl, MAX_BINDINGS).value
    {
      if id !in tenants {
        order := order + [id];
      }
      var live := Live(tenants, now, ttl);
      tenants := live;
      order := Retain(order, live.Keys);
      tenants := tenants[id := Binding(tenant, now)];
      while |tenants| > MAX_BINDINGS && order != []
        invariant Evict(tenants, order, MAX_BINDINGS)
                  == BindAsWritten(old(Contents()), id, tenant, now, ttl, MAX_BINDINGS)
        decreases |order|
      {
        tenants, order := tenants - {order[0]}, order[1..];
      }
      spins := |tenants| > MAX_BINDINGS;
    }

    /**
      `bind` as it is called: a session whose scope or any of whose conflicts lies outside the
      caller's tenant is refused before the table is touched.
    */
    method BindSession(session: Session, tenant: Tenant, now: int) returns (outcome: Outcome)
      modifies this
      ensures outcome.Refused? <==> session.scope != tenant || exists c :: c in session.conflicts && c != tenant
      ensures outcome.Refused? ==> Contents() == old(Contents())
      ensures outcome.Spins? <==>
              !outcome.Refused? && BindAsWritten(old(Contents()), session.id, tenant, now, ttl, MAX_BINDINGS).None?
      ensures outcome.Kept? ==>
              Contents() == BindAsWritten(old(Contents()), session.id, tenant, now, ttl, MAX_BINDINGS).value
    {
      if session.scope != tenant { return Refused; }
      for i := 0 to |session.conflicts|
        invariant forall c :: c in session.conflicts[..i] ==> c == tenant
      {
        assert session.conflicts[i] in session.conflicts;
        if session.conflicts[i] != tenant { return Refused; }
        assert session.conflicts[..i + 1] == session.conflicts[..i] + [session.conflicts[i]];
      }
      assert session.conflicts[..|session.conflicts|] == session.conflicts;
      var spins := Bind(session.id, tenant, now);
      outcome := if spins then Spins else Kept;
    }

    method CheckOwns(id: Id, tenant: Tenant, now: int) returns (ok: bool)
      ensures ok <==> Owns(Contents(), id, tenant, now, ttl)
    {
      ok := false;
      if id in tenants {
        var b := tenants[id];
        ok := b.tenant == tenant && now - b.seen <= ttl;
      }
    }

    method ForgetSession(id: Id)
      modifies this
      ensures Contents() == Forget(old(Contents()), id)
    {
      tenants := tenants - {id};
    }
  }

  // ------------------------------------------------------------------ runs of the code as written

  datatype Op = Bind(id: Id, tenant: Tenant, now: int) | Drop(id: Id)

  /** A run of completed calls; `None` when one of them never returns. */
  function Run(t: Table, ops: seq<Op>, ttl: nat, cap: nat): Option<Table>
    decreases |ops|
  {
    if ops == [] then Some(t)
    else
      var next := RunOne(t, ops[0], ttl, cap);
      if next.None? then None else Run(next.value, ops[1..], ttl, cap)
  }

  /** Nothing but the sessions that have not run out, and the new one: what a bind keeps with an empty queue. */
  lemma BoundTableIs(t: Table, id: Id, tenant: Tenant, now: int, ttl: nat, cap: nat)
    requires t.order == []
    ensures var others := set x | x in t.tenants && x != id && now - t.tenants[x].seen <= ttl;
            var next := BindAsWritten(t, id, tenant, now, ttl, cap);
            && (next.Some? <==> |others| < cap)
            && (next.Some? ==>
                  && next.value.order == [] && next.value.tenants.Keys == others + {id}
                  && next.value.tenants[id] == Binding(tenant, now)
                  && forall x :: x in others ==> next.value.tenants[x] == t.tenants[x])
  {
    BindReturnsIff(t, id, tenant, now, ttl, cap);
    assert Live(t.tenants, now, ttl).Keys - {id}
        == set x | x in t.tenants && x != id && now - t.tenants[x].seen <= ttl;
  }

  /**
    With an empty queue, `bind` returns exactly when the live sessions other than `id` leave room;
    it then evicts nobody and leaves the queue empty.
  */
  lemma BindReturnsIff(t: Table, id: Id, tenant: Tenant, now: int, ttl: nat, cap: nat)
    requires t.order == []
    ensures var next := BindAsWritten(t, id, tenant, now, ttl, cap);
            var live := Live(t.tenants, now, ttl);
            && (next.Some? <==> |live.Keys - {id}| < cap)
            && (next.Some? ==> next.value == Table(live[id := Binding(tenant, now)], []) && |next.value.tenants| <= cap)
  {
    var live := Live(t.tenants, now, ttl);
    var queued := if id in t.tenants then t.order else t.order + [id];
    assert id !in t.tenants ==> queued == [id] && id !in live.Keys;
    assert Retain(queued, live.Keys) == [] by {
      if id !in t.tenants { assert queued[1..] == []; }
    }
    var all := live[id := Binding(tenant, now)];
    assert all.Keys == (live.Keys - {id}) + {id};
    assert |all| == |all.Keys| == |live.Keys - {id}| + 1;
  }

  /** In every state reached by completed calls the queue is empty and the table is within its cap. */
  lemma {:induction false} QueueIsAlwaysEmpty(t: Table, ops: seq<Op>, ttl: nat, cap: nat)
    requires t.order == [] && |t.tenants| <= cap
    ensures var end := Run(t, ops, ttl, cap);
            end.Some? ==> end.value.order == [] && |end.value.tenants| <= cap
    decreases |ops|
  {
    if ops != [] {
      match ops[0]
      case Bind(id, tenant, now) =>
        BindReturnsIff(t, id, tenant, now, ttl, cap);
        var next := BindAsWritten(t, id, tenant, now, ttl, cap);
        if next.Some? { QueueIsAlwaysEmpty(next.value, ops[1..], ttl, cap); }
      case Drop(id) =>
        SubsetCardinality((t.tenants - {id}).Keys, t.tenants.Keys);
        QueueIsAlwaysEmpty(Forget(t, id), ops[1..], ttl, cap);
    }
  }

  function Name(n: nat): (r: string)
    ensures |r| == n
  {
    if n == 0 then "" else Name(n - 1) + "x"
  }

  /** `n` sessions bound at the same instant. */
  function Binds(n: nat): (r: seq<Op>)
    ensures |r| == n
  {
    if n == 0 then [] else Binds(n - 1) + [Bind(Id(Name(n - 1)), Tenant(""), 0)]
  }

  /** The first `n` of the names, bound just now, with nothing queued. */
  ghost predicate Bound(t: Table, n: nat)
  {
    && t.order == [] && |t.tenants| == n
    && (forall id :: id in t.tenants ==> t.tenants[id].seen == 0 && |id.text| < n)
  }

  lemma {:induction false} BindsFill(n: nat, ttl: nat, cap: nat)
    requires n <= cap
    ensures Run(EMPTY, Binds(n), ttl, cap).Some? && Bound(Run(EMPTY, Binds(n), ttl, cap).value, n)
    decreases n
  {
    if n > 0 {
      BindsFill(n - 1, ttl, cap);
      var t := Run(EMPTY, Binds(n - 1), ttl, cap).value;
      RunSnoc(EMPTY, Binds(n), ttl, cap);
      assert Binds(n)[..n - 1] == Binds(n - 1);
      OneMoreBind(t, n - 1, ttl, cap);
    }
  }

  /** Nothing has expired, so one more bind finds room exactly below the cap. */
  lemma OneMoreBind(t: Table, n: nat, ttl: nat, cap: nat)
    requires Bound(t, n)
    ensures var next := BindAsWritten(t, Id(Name(n)), Tenant(""), 0, ttl, cap);
            (next.Some? <==> n < cap) && (next.Some? ==> Bound(next.value, n + 1))
  {
    var id := Id(Name(n));
    BindReturnsIff(t, id, Tenant(""), 0, ttl, cap);
    assert Live(t.tenants, 0, ttl) == t.tenants;
    assert id !in t.tenants;
    assert t.tenants.Keys - {id} == t.tenants.Keys && |t.tenants.Keys| == |t.tenants|;
    InsertCardinality(t.tenants, id, Binding(Tenant(""), 0));
  }

  /** Whatever the cap and the time to live, one bind more than the cap never returns. */
  lemma OneTooManySpins(ttl: nat, cap: nat)
    ensures |Binds(cap + 1)| == cap + 1 && Run(EMPTY, Binds(cap + 1), ttl, cap).None?
  {
    BindsFill(cap, ttl, cap);
    RunSnoc(EMPTY, Binds(cap + 1), ttl, cap);
    assert Binds(cap + 1)[..cap] == Binds(cap);
    OneMoreBind(Run(EMPTY, Binds(cap), ttl, cap).value, cap, ttl, cap);
  }

  // ------------------------------------------------------------------ what `owns` answers

  /** Purging at `now` is invisible to every later question. */
  lemma PurgeIsInvisible(t: Table, id: Id, tenant: Tenant, now: int, later: int, ttl: nat)
    requires now <= later
    ensures Owns(t.(tenants := Live(t.tenants, now, ttl)), id, tenant, later, ttl) <==> Owns(t, id, tenant, later, ttl)
  {
  }

  /** The last binding of `id` in a history, unless it was dropped after it. */
  function LastBinding(ops: seq<Op>, id: Id): Option<Binding>
    decreases |ops|
  {
    if ops == [] then None
    else
      var last := ops[|ops| - 1];
      if last.id != id then LastBinding(ops[..|ops| - 1], id)
      else if last.Drop? then None
      else Some(Binding(last.tenant, last.now))
  }

  /** Calls come in the order of their clock readings, none later than `until`. */
  ghost predicate Chronological(ops: seq<Op>, until: int)
  {
    && (forall i :: 0 <= i < |ops| && ops[i].Bind? ==> ops[i].now <= until)
    && (forall i, j :: 0 <= i < j < |ops| && ops[i].Bind? && ops[j].Bind? ==> ops[i].now <= ops[j].now)
  }

  /** The table agrees with the history at every moment from `until` on. */
  ghost predicate Agrees(t: Table, ops: seq<Op>, until: int, ttl: nat)
  {
    forall id :: var last := LastBinding(ops, id);
      && (id in t.tenants ==> last == Some(t.tenants[id]))
      && (last.Some? && id !in t.tenants ==> until - last.value.seen > ttl)
  }

  function RunOne(t: Table, op: Op, ttl: nat, cap: nat): Option<Table>
  {
    match op
    case Bind(id, tenant, now) => BindAsWritten(t, id, tenant, now, ttl, cap)
    case Drop(id) => Some(Forget(t, id))
  }

  lemma {:induction false} RunSnoc(t: Table, ops: seq<Op>, ttl: nat, cap: nat)
    requires ops != []
    ensures var before := Run(t, ops[..|ops| - 1], ttl, cap);
            Run(t, ops, ttl, cap) == if before.None? then None else RunOne(before.value, ops[|ops| - 1], ttl, cap)
    decreases |ops|
  {
    var next := RunOne(t, ops[0], ttl, cap);
    if |ops| == 1 {
      assert ops[..0] == [];
      if next.Some? { assert Run(next.value, ops[1..], ttl, cap) == next; }
    } else {
      assert ops[1..][..|ops| - 2] == ops[..|ops| - 1][1..];
      assert ops[1..][|ops| - 2] == ops[|ops| - 1];
      if next.Some? { RunSnoc(next.value, ops[1..], ttl, cap); }
    }
  }

  /**
    As long as the calls return, the table answers exactly as the whole history would: a tenant
    owns a session iff the last word on it was that tenant's binding, no more than `ttl` ago.
  */
  lemma OwnsMatchesHistory(ops: seq<Op>, until: int, id: Id, tenant: Tenant, later: int, ttl: nat, cap: nat)
    requires Chronological(ops, until) && until <= later && Run(EMPTY, ops, ttl, cap).Some?
    ensures Owns(Run(EMPTY, ops, ttl, cap).value, id, tenant, later, ttl) <==>
              var last := LastBinding(ops, id);
              last.Some? && last.value.tenant == tenant && later - last.value.seen <= ttl
  {
    HistoryAgrees(ops, until, ttl, cap);
    assert var last := LastBinding(ops, id); last.Some? || last.None?;
  }

  lemma {:induction false} HistoryAgrees(ops: seq<Op>, until: int, ttl: nat, cap: nat)
    requires Chronological(ops, until) && Run(EMPTY, ops, ttl, cap).Some?
    ensures Agrees(Run(EMPTY, ops, ttl, cap).value, ops, until, ttl)
    decreases |ops|, 1
  {
    if ops != [] {
      RunSnoc(EMPTY, ops, ttl, cap);
      if ops[|ops| - 1].Bind? { BindAgrees(ops, until, ttl, cap); } else { DropAgrees(ops, until, ttl, cap); }
    }
  }

  lemma BindAgrees(ops: seq<Op>, until: int, ttl: nat, cap: nat)
    requires ops != [] && ops[|ops| - 1].Bind? && Chronological(ops, until) && Run(EMPTY, ops, ttl, cap).Some?
    ensures Agrees(Run(EMPTY, ops, ttl, cap).value, ops, until, ttl)
    decreases |ops|, 0
  {
    var n := |ops| - 1;
    var past, id, tenant, now := ops[..n], ops[n].id, ops[n].tenant, ops[n].now;
    RunSnoc(EMPTY, ops, ttl, cap);
    var t := Run(EMPTY, past, ttl, cap).value;
    QueueIsAlwaysEmpty(EMPTY, past, ttl, cap);
    assert ops[n].now <= until;
    assert forall i :: 0 <= i < n && past[i].Bind? ==> past[i] == ops[i] && past[i].now <= now;
    HistoryAgrees(past, now, ttl, cap);
    BindReturnsIff(t, id, tenant, now, ttl, cap);
    forall x ensures var b := LastBinding(ops, x);
                     var end := Run(EMPTY, ops, ttl, cap).value;
                     && (x in end.tenants ==> b == Some(end.tenants[x]))
                     && (b.Some? && x !in end.tenants ==> until - b.value.seen > ttl) {
      if x != id { assert LastBinding(ops, x) == LastBinding(past, x); }
    }
  }

  lemma DropAgrees(ops: seq<Op>, until: int, ttl: nat, cap: nat)
    requires ops != [] && ops[|ops| - 1].Drop? && Chronological(ops, until) && Run(EMPTY, ops, ttl, cap).Some?
    ensures Agrees(Run(EMPTY, ops, ttl, cap).value, ops, until, ttl)
    decreases |ops|, 0
  {
    var n := |ops| - 1;
    var past, id := ops[..n], ops[n].id;
    RunSnoc(EMPTY, ops, ttl, cap);
    assert forall i :: 0 <= i < n ==> past[i] == ops[i];
    HistoryAgrees(past, until, ttl, cap);
    forall x ensures var b := LastBinding(ops, x);
                     var end := Run(EMPTY, ops, ttl, cap).value;
                     && (x in end.tenants ==> b == Some(end.tenants[x]))
                     && (b.Some? && x !in end.tenants ==> until - b.value.seen > ttl) {
      if x != id { assert LastBinding(ops, x) == LastBinding(past, x); }
    }
  }

  // ------------------------------------------------------------------ the intended order

  /** Every live id is queued once, and the table is within its cap. */
  ghost predicate Queued(t: Table, cap: nat)
  {
    Distinct(t.order) && t.tenants.Keys <= Elements(t.order) && |t.tenants| <= cap
  }

  /**
    Queueing after the filter repairs it: `bind` always returns, the queue then lists exactly the
    ids of the table, the table is within its cap, the bound session is in it, and at most one
    live session is evicted, the one that has been queued longest.
  */
  lemma IntendedBindIsBounded(t: Table, id: Id, tenant: Tenant, now: int, ttl: nat, cap: nat)
    requires Queued(t, cap) && cap > 0
    ensures var next := BindIntended(t, id, tenant, now, ttl, cap);
            && next.Some? && Queued(next.value, cap) && next.value.tenants.Keys == Elements(next.value.order)
            && id in next.value.tenants && next.value.tenants[id] == Binding(tenant, now)
            && var all := Live(t.tenants, now, ttl)[id := Binding(tenant, now)];
            var kept := Retain(t.order, Live(t.tenants, now, ttl).Keys);
            && (|all| <= cap ==> next.value.tenants == all)
            && (|all| > cap ==> kept != [] && next.value.tenants == all - {kept[0]})
  {
    var live := Live(t.tenants, now, ttl);
    var b := Binding(tenant, now);
    QueueBeforeEviction(live, t, id, b, cap);
    EvictAtMostOne(live, Retain(t.order, live.Keys), id, b, cap);
  }

  predicate StillLive(t: Table, x: Id, now: int, ttl: nat) { x in t.tenants && now - t.tenants[x].seen <= ttl }

  /** What such a bind keeps of the other sessions has not run out and is as it was. */
  lemma IntendedKeepsLive(t: Table, id: Id, tenant: Tenant, now: int, ttl: nat, cap: nat, x: Id)
    requires Queued(t, cap) && cap > 0 && x != id
    ensures var next := BindIntended(t, id, tenant, now, ttl, cap);
            next.Some? && (x in next.value.tenants ==>
                             StillLive(t, x, now, ttl) && next.value.tenants[x] == t.tenants[x])
  {
    IntendedBindIsBounded(t, id, tenant, now, ttl, cap);
  }

  /** It keeps all of them but for at most one, and that only if the table is full and none was queued earlier. */
  lemma IntendedEvictsOldest(t: Table, id: Id, tenant: Tenant, now: int, ttl: nat, cap: nat, i: nat, j: nat)
    requires Queued(t, cap) && cap > 0 && BindIntended(t, id, tenant, now, ttl, cap).Some?
    requires i < |t.order| && j < |t.order| && i != j
    requires StillLive(t, t.order[i], now, ttl) && StillLive(t, t.order[j], now, ttl)
    ensures var next := BindIntended(t, id, tenant, now, ttl, cap).value;
            t.order[i] !in next.tenants ==> |next.tenants| >= cap && i < j && t.order[j] in next.tenants
  {
    var live := Live(t.tenants, now, ttl);
    var all := live[id := Binding(tenant, now)];
    IntendedBindIsBounded(t, id, tenant, now, ttl, cap);
    assert t.order[i] in all.Keys && t.order[j] in all.Keys;
    if |all| > cap {
      var first := FirstKept(t.order, live.Keys);
      assert t.order[i] in live.Keys && t.order[j] in live.Keys;
      OneLess(all, t.order[first]);
    }
  }

  lemma OneLess(all: map<Id, Binding>, x: Id)
    ensures |all - {x}| >= |all| - 1
  {
    if x in all {
      assert (all - {x}).Keys == all.Keys - {x};
      assert |(all - {x}).Keys| == |all - {x}| && |all.Keys| == |all|;
    } else {
      assert all - {x} == all;
    }
  }

  /** The first one retained is the first there is to keep. */
  lemma {:induction false} FirstKept(order: seq<Id>, keep: set<Id>) returns (i: nat)
    requires Retain(order, keep) != []
    ensures i < |order| && order[i] == Retain(order, keep)[0] && order[i] in keep
    ensures forall j :: 0 <= j < i ==> order[j] !in keep
    decreases |order|
  {
    if order[0] in keep {
      i := 0;
    } else {
      var k := FirstKept(order[1..], keep);
      i := k + 1;
    }
  }

  lemma EvictAtMostOne(live: map<Id, Binding>, kept: seq<Id>, id: Id, b: Binding, cap: nat)
    requires var all := live[id := b];
             var order := if id in live then kept else kept + [id];
             && Distinct(order) && Elements(order) == all.Keys && |all| <= cap + 1
             && (|all| > cap ==> id !in live && kept != [])
    ensures var all := live[id := b];
            var order := if id in live then kept else kept + [id];
            var next := Evict(all, order, cap);
            && next.Some? && Queued(next.value, cap) && next.value.tenants.Keys == Elements(next.value.order)
            && id in next.value.tenants && next.value.tenants[id] == b
            && (|all| <= cap ==> next.value.tenants == all)
            && (|all| > cap ==> kept != [] && next.value.tenants == all - {kept[0]})
  {
    var all := live[id := b];
    if |all| > cap {
      var order := kept + [id];
      assert order[0] == kept[0];
      EvictOne(all, order, cap);
      assert order[|kept|] == id && order[0] != id;
    }
  }

  /** Before the eviction loop the queue lists exactly the table's ids, and at most one is too many. */
  lemma QueueBeforeEviction(live: map<Id, Binding>, t: Table, id: Id, b: Binding, cap: nat)
    requires Queued(t, cap) && cap > 0 && live.Keys <= t.tenants.Keys
    ensures var kept := Retain(t.order, live.Keys);
            var order := if id in live then kept else kept + [id];
            && Distinct(order) && Elements(order) == live[id := b].Keys
            && |live[id := b]| <= cap + 1
            && (|live[id := b]| > cap ==> id !in live && kept != [])
  {
    var kept := Retain(t.order, live.Keys);
    KeptIsLive(t.order, live.Keys);
    QueuedLast(kept, live.Keys, id);
    InsertCardinality(live, id, b);
    LiveFits(live, t, cap);
    DistinctCardinality(kept);
  }

  lemma QueuedLast(kept: seq<Id>, live: set<Id>, id: Id)
    requires Distinct(kept) && Elements(kept) == live
    ensures var order := if id in live then kept else kept + [id]; Distinct(order) && Elements(order) == live + {id}
  {
    assert id !in live ==> id !in kept by {
      if id in kept { assert id in Elements(kept); }
    }
  }

  lemma LiveFits(live: map<Id, Binding>, t: Table, cap: nat)
    requires |t.tenants| <= cap && live.Keys <= t.tenants.Keys
    ensures |live| <= cap && |live.Keys| == |live|
  {
    SubsetCardinality(live.Keys, t.tenants.Keys);
    assert |live| == |live.Keys| && |t.tenants| == |t.tenants.Keys|;
  }

  lemma KeptIsLive(order: seq<Id>, keep: set<Id>)
    requires Distinct(order) && keep <= Elements(order)
    ensures Distinct(Retain(order, keep)) && Elements(Retain(order, keep)) == keep
  {
    RetainDistinct(order, keep);
  }

  lemma InsertCardinality(m: map<Id, Binding>, id: Id, b: Binding)
    ensures |m[id := b]| == |m| + (if id in m then 0 else 1) && m[id := b].Keys == m.Keys + {id}
  {
    assert m[id := b].Keys == m.Keys + {id};
    assert |m| == |m.Keys| && |m[id := b]| == |m[id := b].Keys|;
  }

  /** With one id too many the loop runs once and drops the front of the queue. */
  lemma EvictOne(all: map<Id, Binding>, order: seq<Id>, cap: nat)
    requires |all| == cap + 1 && Distinct(order) && Elements(order) == all.Keys
    ensures order != [] && Evict(all, order, cap) == Some(Table(all - {order[0]}, order[1..]))
    ensures (all - {order[0]}).Keys == Elements(order[1..]) && |all - {order[0]}| == cap && Distinct(order[1..])
  {
    DistinctCardinality(order);
    assert |all| == |all.Keys|;
    var left := all - {order[0]};
    assert order[0] in Elements(order);
    assert left.Keys == all.Keys - {order[0]};
    assert |left| == |left.Keys| == cap;
  }

  lemma ForgetKeepsQueued(t: Table, id: Id, cap: nat)
    requires Queued(t, cap)
    ensures Queued(Forget(t, id), cap)
  {
    SubsetCardinality((t.tenants - {id}).Keys, t.tenants.Keys);
  }

  function RunIntended(t: Table, ops: seq<Op>, ttl: nat, cap: nat): Option<Table>
    decreases |ops|
  {
    if ops == [] then Some(t)
    else
      var next := match ops[0] case Bind(id, tenant, now) => BindIntended(t, id, tenant, now, ttl, cap)
                               case Drop(id) => Some(Forget(t, id));
      if next.None? then None else RunIntended(next.value, ops[1..], ttl, cap)
  }

  /**
    No run of the intended calls ever spins; throughout, the queue covers the table and the table is
    within its cap.
  */
  lemma {:induction false} IntendedRunReturns(t: Table, ops: seq<Op>, ttl: nat, cap: nat)
    requires Queued(t, cap) && cap > 0
    ensures var end := RunIntended(t, ops, ttl, cap); end.Some? && Queued(end.value, cap)
    decreases |ops|
  {
    if ops != [] {
      match ops[0]
      case Bind(id, tenant, now) =>
        IntendedBindIsBounded(t, id, tenant, now, ttl, cap);
        IntendedRunReturns(BindIntended(t, id, tenant, now, ttl, cap).value, ops[1..], ttl, cap);
      case Drop(id) =>
        ForgetKeepsQueued(t, id, cap);
        IntendedRunReturns(Forget(t, id), ops[1..], ttl, cap);
    }
  }

  /** The same binds that spin as written, and any others, in a table that starts empty. */
  lemma IntendedNeverSpins(ops: seq<Op>, ttl: nat, cap: nat)
    requires cap > 0
    ensures var end := RunIntended(EMPTY, ops, ttl, cap);
            && end.Some? && |end.value.tenants| <= cap && end.value.tenants.Keys <= Elements(end.value.order)
  {
    IntendedRunReturns(EMPTY, ops, ttl, cap);
  }
}
