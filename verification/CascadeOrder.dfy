/**
  The order of a plan: level by level, within a level in the order of the level before, and for
  one URI in the order of its list of links.
*/
module CascadeOrder {
  import opened Prelude
  import opened Entanglement
  import opened Cascade

  /** The first place of `u`, or the length of the list. */
  function Place(us: seq<Uri>, u: Uri): (i: nat)
    ensures i <= |us| && (i < |us| ==> us[i] == u) && forall j :: 0 <= j < i ==> us[j] != u
  {
    if us == [] || us[0] == u then 0 else 1 + Place(us[1..], u)
  }

  function LinkPlace(v: Uri, u: Uri, c: Config): nat { Position(Links(c.links, v), u) }

  /** `a` is due before `b` in the level after `us`. */
  ghost predicate Before(us: seq<Uri>, a: Task, b: Task, c: Config)
  {
    Place(us, a.via) < Place(us, b.via)
      || (a.via == b.via && LinkPlace(a.via, a.uri, c) < LinkPlace(a.via, b.uri, c))
  }

  ghost predicate InOrder(us: seq<Uri>, ts: seq<Task>, c: Config)
  {
    forall i, j :: 0 <= i < j < |ts| ==> Before(us, ts[i], ts[j], c)
  }

  // ------------------------------------------------------------------ links

  lemma {:induction false} StrongKeepsOrder(list: seq<Link>, threshold: real)
    requires OneLinkEach(list)
    ensures forall i, j :: 0 <= i < j < |Strong(list, threshold)| ==>
              Position(list, Strong(list, threshold)[i].partner) < Position(list, Strong(list, threshold)[j].partner)
    decreases |list|
  {
    if list != [] {
      var n := |list| - 1;
      var front, last := list[..n], list[n];
      StrongKeepsOrder(front, threshold);
      StrongIs(front, threshold);
      var strong, all := Strong(front, threshold), Strong(list, threshold);
      PositionIsUnique(list, n);
      forall l | l in front ensures Position(list, l.partner) == Position(front, l.partner) < n {
        var k :| 0 <= k < n && front[k] == l;
        PositionIsUnique(list, k);
        PositionIsUnique(front, k);
      }
      forall i, j | 0 <= i < j < |all|
        ensures Position(list, all[i].partner) < Position(list, all[j].partner)
      {
        assert all[i] in strong;
        if j < |strong| { assert all[j] in strong; }
      }
    }
  }

  lemma SuggestedInOrder(us: seq<Uri>, v: Uri, depth: nat, c: Config)
    requires Entanglement.Sound(c.links)
    ensures InOrder(us, Suggested(v, depth, c), c)
  {
    StrongKeepsOrder(Links(c.links, v), c.minimum);
  }

  lemma PlaceIs(us: seq<Uri>, i: nat)
    requires Distinct(us) && i < |us|
    ensures Place(us, us[i]) == i
  {
  }

  /** What a list of URIs suggests, before anything seen is left out, is in order. */
  lemma {:induction false} AllInOrder(us: seq<Uri>, n: nat, depth: nat, c: Config)
    requires Entanglement.Sound(c.links) && Distinct(us) && n <= |us|
    ensures InOrder(us, AllSuggested(us[..n], depth, c), c)
    decreases n
  {
    if n > 0 {
      AllInOrder(us, n - 1, depth, c);
      SuggestedNext(us, n - 1, depth, c);
      SuggestedDepth(us[..n - 1], depth, c);
      SuggestedInOrder(us, us[n - 1], depth, c);
      PlaceIs(us, n - 1);
      AllEarlier(us, n - 1, AllSuggested(us[..n - 1], depth, c));
      OrderJoined(us, AllSuggested(us[..n - 1], depth, c), Suggested(us[n - 1], depth, c), n - 1, c);
    }
  }

  lemma AllEarlier(us: seq<Uri>, n: nat, ts: seq<Task>)
    requires Distinct(us) && n <= |us| && forall t :: t in ts ==> t.via in us[..n]
    ensures forall t :: t in ts ==> Place(us, t.via) < n
  {
    forall t | t in ts ensures Place(us, t.via) < n {
      var i :| 0 <= i < n && us[i] == t.via;
      PlaceIs(us, i);
    }
  }

  lemma OrderJoined(us: seq<Uri>, ts: seq<Task>, more: seq<Task>, n: nat, c: Config)
    requires InOrder(us, ts, c) && InOrder(us, more, c)
    requires (forall t :: t in ts ==> Place(us, t.via) < n) && (forall t :: t in more ==> Place(us, t.via) == n)
    ensures InOrder(us, ts + more, c)
  {
    var all := ts + more;
    forall i, j | 0 <= i < j < |all| ensures Before(us, all[i], all[j], c) {
      if i < |ts| && j >= |ts| { assert all[i] in ts && all[j] in more; }
    }
  }

  // ------------------------------------------------------------------ first occurrences

  /** What is left of a list in order is in order, and of two suggestions of one URI it keeps the one due first. */
  lemma {:induction false} FreshInOrder(us: seq<Uri>, ts: seq<Task>, seen: set<Uri>, c: Config)
    requires InOrder(us, ts, c)
    ensures InOrder(us, Fresh(ts, seen), c)
    ensures forall t, s :: t in Fresh(ts, seen) && s in ts && s.uri == t.uri ==> s == t || Before(us, t, s, c)
    decreases |ts|
  {
    if ts != [] {
      var rest := ts[1..];
      var more := if ts[0].uri in seen then seen else seen + {ts[0].uri};
      assert InOrder(us, rest, c);
      FreshInOrder(us, rest, more, c);
      FreshSelects(rest, more);
      forall t | t in rest ensures Before(us, ts[0], t, c) {
        var i :| 0 <= i < |rest| && rest[i] == t;
        assert ts[i + 1] == t;
      }
      var left := Fresh(rest, more);
      forall i | 0 <= i < |left| ensures left[i] in rest { assert left[i] in left; }
      assert ts == [ts[0]] + rest;
    }
  }

  // ------------------------------------------------------------------ main results

  lemma LevelIsDistinct(trigger: Uri, k: nat, c: Config)
    ensures Distinct(LevelUris(trigger, k, c))
  {
    if k > 0 {
      FreshIsDistinct(AllSuggested(LevelUris(trigger, k - 1, c), k, c), {trigger} + Uris(Full(trigger, k - 1, c)));
    }
  }

  /**
    A level follows the order of the one before and of the lists of links; and a URI that several of the
    level before link to is listed for the first of them.
  */
  lemma LevelInOrder(trigger: Uri, k: nat, c: Config)
    requires k > 0 && Entanglement.Sound(c.links)
    ensures var us, level := LevelUris(trigger, k - 1, c), Level(trigger, k, c);
            && InOrder(us, level, c)
            && forall t, v :: t in level && v in us && Joined(v, t.uri, c) ==>
                 t.via in us && Place(us, t.via) <= Place(us, v)
  {
    var us, seen := LevelUris(trigger, k - 1, c), {trigger} + Uris(Full(trigger, k - 1, c));
    LevelIsDistinct(trigger, k - 1, c);
    FreshLevel(us, seen, k, c);
  }

  lemma FreshLevel(us: seq<Uri>, seen: set<Uri>, k: nat, c: Config)
    requires Distinct(us) && Entanglement.Sound(c.links)
    ensures var level := Fresh(AllSuggested(us, k, c), seen);
            && InOrder(us, level, c)
            && forall t, v :: t in level && v in us && Joined(v, t.uri, c) ==>
                 t.via in us && Place(us, t.via) <= Place(us, v)
  {
    var all := AllSuggested(us, k, c);
    assert us[..|us|] == us;
    AllInOrder(us, |us|, k, c);
    FreshInOrder(us, all, seen, c);
    forall t, v | t in Fresh(all, seen) && v in us && Joined(v, t.uri, c)
      ensures t.via in us && Place(us, t.via) <= Place(us, v)
    {
      var s := SuggestionOf(us, v, t.uri, k, c);
      FreshIsSuggested(us, seen, t, k, c);
    }
  }

  lemma SuggestionOf(us: seq<Uri>, v: Uri, u: Uri, k: nat, c: Config) returns (s: Task)
    requires v in us && Joined(v, u, c)
    ensures s in AllSuggested(us, k, c) && s.via == v && s.uri == u
  {
    SuggestedIsJoined(v, u, k, c);
    s :| s in Suggested(v, k, c) && s.uri == u;
    SuggestedDepth(us, k, c);
  }

  lemma FreshIsSuggested(us: seq<Uri>, seen: set<Uri>, t: Task, k: nat, c: Config)
    requires t in Fresh(AllSuggested(us, k, c), seen)
    ensures t.via in us
  {
    FreshSelects(AllSuggested(us, k, c), seen);
    SuggestedDepth(us, k, c);
  }

  /**
    The plan goes level by level, and says of every URI where it came from: something one level up
    that links to it.
  */
  lemma PlanInOrder(trigger: Uri, n: nat, i: nat, j: nat, c: Config)
    requires i < j < |Full(trigger, n, c)| && Entanglement.Sound(c.links)
    ensures var plan := Full(trigger, n, c);
            && plan[i].depth <= plan[j].depth
            && (plan[i].depth == plan[j].depth ==>
                  Before(LevelUris(trigger, Up(plan[i].depth), c), plan[i], plan[j], c))
    decreases n
  {
    var plan := Full(trigger, n, c);
    var before := Full(trigger, n - 1, c);
    FullDepths(trigger, n - 1, c);
    if j < |before| {
      PlanInOrder(trigger, n - 1, i, j, c);
      assert plan[i] == before[i] && plan[j] == before[j];
    } else {
      LastLevel(trigger, n, i, j, before, plan, c);
    }
  }

  lemma LastLevel(trigger: Uri, n: nat, i: nat, j: nat, before: seq<Task>, plan: seq<Task>, c: Config)
    requires n > 0 && plan == before + Level(trigger, n, c) && i < j < |plan| && |before| <= j
    requires Entanglement.Sound(c.links) && forall t :: t in before ==> t.depth <= n - 1
    ensures plan[i].depth <= plan[j].depth == n
    ensures plan[i].depth == n ==> Before(LevelUris(trigger, n - 1, c), plan[i], plan[j], c)
  {
    var level := Level(trigger, n, c);
    LevelDepth(trigger, n, c);
    LevelInOrder(trigger, n, c);
    assert plan[j] == level[j - |before|] && plan[j] in level;
    if i < |before| { assert plan[i] == before[i] && plan[i] in before; }
    else { assert plan[i] == level[i - |before|] && plan[i] in level; }
  }

  lemma LevelDepth(trigger: Uri, k: nat, c: Config)
    requires k > 0
    ensures forall t :: t in Level(trigger, k, c) ==> t.depth == k
  {
    SuggestedDepth(LevelUris(trigger, k - 1, c), k, c);
    FreshSelects(AllSuggested(LevelUris(trigger, k - 1, c), k, c), {trigger} + Uris(Full(trigger, k - 1, c)));
  }

  function Up(depth: nat): nat { if depth == 0 then 0 else depth - 1 }
}
