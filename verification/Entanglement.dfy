/**
  Entanglement weights: how often two URIs are patched together, kept per URI in lists that
  are changed in place, growing with every co-patch and shrinking with every decay; `f32` is
  read as `real`.
*/
module Entanglement {

  datatype Uri = Uri(id: nat)

  datatype Direction = Symmetric | OneWay

  datatype Link = Link(partner: Uri, weight: real, direction: Direction)

  type Table = map<Uri, seq<Link>>

  const FLOOR: real := 0.05

  function Min(a: real, b: real): real { if a <= b then a else b }

  function Grown(weight: real): real { Min(weight * 0.8 + 0.2, 1.0) }

  function Scaled(weight: real, rate: real): real { weight * (1.0 - rate) }

  function Links(t: Table, a: Uri): seq<Link> { if a in t then t[a] else [] }

  /** The place of the first link to `b`, or the length of the list. */
  function Position(list: seq<Link>, b: Uri): (i: nat)
    ensures i <= |list| && (i < |list| ==> list[i].partner == b)
    ensures forall j :: 0 <= j < i ==> list[j].partner != b
  {
    if list == [] then 0
    else
      var n := |list| - 1;
      var i := Position(list[..n], b);
      if i < n then i else if list[n].partner == b then n else n + 1
  }

  function Recorded(list: seq<Link>, b: Uri, direction: Direction): seq<Link>
  {
    var i := Position(list, b);
    if i < |list| then list[i := Link(b, Grown(list[i].weight), direction)] else list + [Link(b, 0.2, direction)]
  }

  function Record(t: Table, a: Uri, b: Uri, direction: Direction): Table
  {
    t[a := Recorded(Links(t, a), b, direction)]
  }

  function CoPatch(t: Table, a: Uri, b: Uri): Table { Record(Record(t, a, b, Symmetric), b, a, Symmetric) }

  function Decayed(list: seq<Link>, rate: real): seq<Link>
  {
    if list == [] then []
    else
      var rest := Decayed(list[..|list| - 1], rate);
      var last := list[|list| - 1];
      if Scaled(last.weight, rate) > FLOOR then rest + [last.(weight := Scaled(last.weight, rate))] else rest
  }

  function Decay(t: Table, rate: real): Table
  {
    map a | a in t && Decayed(t[a], rate) != [] :: Decayed(t[a], rate)
  }

  /** `entanglements_for`: the links that are strong enough, in order. */
  function Strong(list: seq<Link>, threshold: real): seq<Link>
  {
    if list == [] then []
    else
      var rest := Strong(list[..|list| - 1], threshold);
      var last := list[|list| - 1];
      if last.weight >= threshold then rest + [last] else rest
  }

  /** `EntanglementDetector`. */
  class Detector {
    var entanglements: Table

    constructor ()
      ensures entanglements == map[]
    {
      entanglements := map[];
    }

    method RecordDirected(a: Uri, b: Uri, direction: Direction)
      modifies this
      ensures entanglements == Record(old(entanglements), a, b, direction)
    {
      var entry := Links(entanglements, a);
      var i := 0;
      while i < |entry| && entry[i].partner != b
        invariant 0 <= i <= |entry|
        invariant forall j :: 0 <= j < i ==> entry[j].partner != b
      {
        i := i + 1;
      }
      if i < |entry| {
        entry := entry[i := Link(b, Grown(entry[i].weight), direction)];
      } else {
        entry := entry + [Link(b, 0.2, direction)];
      }
      entanglements := entanglements[a := entry];
    }

    method RecordCoPatch(a: Uri, b: Uri)
      modifies this
      ensures entanglements == CoPatch(old(entanglements), a, b)
    {
      RecordDirected(a, b, Symmetric);
      RecordDirected(b, a, Symmetric);
    }

    method RecordDependency(source: Uri, dependent: Uri)
      modifies this
      ensures entanglements == Record(old(entanglements), source, dependent, OneWay)
    {
      RecordDirected(source, dependent, OneWay);
    }

    method DecayAll(rate: real)
      modifies this
      ensures entanglements == Decay(old(entanglements), rate)
    {
      var todo := entanglements.Keys;
      while todo != {}
        invariant todo <= old(entanglements).Keys
        invariant forall a :: a in entanglements ==> a in old(entanglements)
        invariant forall a :: a in todo ==> a in entanglements && entanglements[a] == old(entanglements)[a]
        invariant forall a :: a in old(entanglements) && a !in todo ==>
          if Decayed(old(entanglements)[a], rate) == [] then a !in entanglements
          else a in entanglements && entanglements[a] == Decayed(old(entanglements)[a], rate)
        decreases todo
      {
        var a :| a in todo;
        var list := entanglements[a];
        var kept := [];
        for i := 0 to |list|
          invariant kept == Decayed(list[..i], rate)
        {
          assert list[..i + 1][..i] == list[..i] && list[..i + 1][i] == list[i];
          var scaled := list[i].(weight := Scaled(list[i].weight, rate));
          if scaled.weight > FLOOR { kept := kept + [scaled]; }
        }
        assert list[..|list|] == list;
        entanglements := if kept == [] then entanglements - {a} else entanglements[a := kept];
        todo := todo - {a};
      }
    }

    method EntanglementsFor(uri: Uri, threshold: real) returns (links: seq<Link>)
      ensures links == Strong(Links(entanglements, uri), threshold)
      ensures forall l :: l in links <==> l in Links(entanglements, uri) && l.weight >= threshold
    {
      var list := Links(entanglements, uri);
      links := [];
      for i := 0 to |list|
        invariant links == Strong(list[..i], threshold)
      {
        assert list[..i + 1][..i] == list[..i];
        if list[i].weight >= threshold { links := links + [list[i]]; }
      }
      assert list[..|list|] == list;
      StrongIs(list, threshold);
    }
  }

  lemma {:induction false} StrongIs(list: seq<Link>, threshold: real)
    ensures forall l :: l in Strong(list, threshold) <==> l in list && l.weight >= threshold
    decreases |list|
  {
    if list != [] {
      StrongIs(list[..|list| - 1], threshold);
      assert list == list[..|list| - 1] + [list[|list| - 1]];
    }
  }

  // ------------------------------------------------------------------ the table's invariant

  ghost predicate OneLinkEach(list: seq<Link>)
  {
    forall i, j :: 0 <= i < j < |list| ==> list[i].partner != list[j].partner
  }

  ghost predicate InRange(list: seq<Link>)
  {
    forall l :: l in list ==> 0.0 < l.weight <= 1.0
  }

  /** No URI lists a partner twice, and every weight is in (0, 1]. */
  ghost predicate Sound(t: Table) { forall a :: a in t ==> OneLinkEach(t[a]) && InRange(t[a]) }

  function ListWeight(list: seq<Link>, b: Uri): real
  {
    var i := Position(list, b);
    if i < |list| then list[i].weight else 0.0
  }

  /** How strongly `a` lists `b`; nothing recorded counts as 0. */
  function Weight(t: Table, a: Uri, b: Uri): real { ListWeight(Links(t, a), b) }

  /** In a list without repeats, any link to `b` is the one the weight speaks of. */
  lemma PositionIsUnique(list: seq<Link>, i: nat)
    requires OneLinkEach(list) && i < |list|
    ensures Position(list, list[i].partner) == i
  {
  }

  lemma RecordedWeight(list: seq<Link>, b: Uri, direction: Direction, y: Uri)
    requires OneLinkEach(list) && InRange(list)
    ensures var now := Recorded(list, b, direction);
            && OneLinkEach(now) && InRange(now)
            && ListWeight(now, y) == if y == b then Nudged(ListWeight(list, y)) else ListWeight(list, y)
  {
    var now := Recorded(list, b, direction);
    var i := Position(list, b);
    assert i < |now| && now[i].partner == b;
    assert forall j :: 0 <= j < |list| && j != i ==> now[j] == list[j];
    PositionIsUnique(now, i);
    var k := Position(list, y);
    if y != b && k < |list| { PositionIsUnique(now, k); }
  }

  /**
    One record changes one list: the first link to the partner grows and takes the direction, or a new
    one comes last.
  */
  lemma RecordedIs(t: Table, a: Uri, b: Uri, direction: Direction)
    ensures var was, now := Links(t, a), Record(t, a, b, direction);
            && now.Keys == t.Keys + {a} && (forall x :: x in t && x != a ==> now[x] == t[x])
            && ((forall i :: 0 <= i < |was| ==> was[i].partner != b) ==> now[a] == was + [Link(b, 0.2, direction)])
            && forall i :: 0 <= i < |was| && was[i].partner == b && (forall j :: 0 <= j < i ==> was[j].partner != b) ==>
                 var w := was[i].weight * 0.8 + 0.2;
                 now[a] == was[i := Link(b, if w <= 1.0 then w else 1.0, direction)]
  {
  }

  /** A co-patch is recorded on both sides, a dependency on the side of its source alone. */
  lemma SidesOf(t: Table, a: Uri, b: Uri)
    requires a != b
    ensures forall x :: x != a && x != b ==> Links(CoPatch(t, a, b), x) == Links(t, x)
    ensures exists l, m :: l in Links(CoPatch(t, a, b), a) && l.partner == b && l.direction.Symmetric?
                           && m in Links(CoPatch(t, a, b), b) && m.partner == a && m.direction.Symmetric?
    ensures Links(Record(t, a, b, OneWay), b) == Links(t, b)
    ensures exists l :: l in Links(Record(t, a, b, OneWay), a) && l.partner == b && l.direction.OneWay?
  {
    RecordedHolds(Links(t, a), b, Symmetric);
    RecordedHolds(Links(t, b), a, Symmetric);
    RecordedHolds(Links(t, a), b, OneWay);
  }

  lemma RecordedHolds(list: seq<Link>, b: Uri, direction: Direction)
    ensures exists l :: l in Recorded(list, b, direction) && l.partner == b && l.direction == direction
  {
    var i := Position(list, b);
    assert Recorded(list, b, direction)[i].partner == b;
  }

  /** A fifth of the way to 1. */
  function Nudged(weight: real): real { weight * 0.8 + 0.2 }

  /** One record moves exactly one weight, by a fifth of the way to 1. */
  lemma RecordMovesOneWeight(t: Table, a: Uri, b: Uri, direction: Direction, x: Uri, y: Uri)
    requires Sound(t)
    ensures Sound(Record(t, a, b, direction))
    ensures Weight(Record(t, a, b, direction), x, y) == if x == a && y == b then Nudged(Weight(t, x, y))
            else Weight(t, x, y)
  {
    RecordedWeight(Links(t, a), b, direction, y);
  }

  function DecayedWeight(weight: real, rate: real): real
  {
    if Scaled(weight, rate) > FLOOR then Scaled(weight, rate) else 0.0
  }

  /** What decay takes off, and where it forgets. */
  lemma DecayIs(weight: real, rate: real)
    ensures DecayedWeight(weight, rate) == if weight * (1.0 - rate) > 0.05 then weight * (1.0 - rate) else 0.0
  {
  }

  lemma Shrinks(weight: real, rate: real)
    requires 0.0 < weight <= 1.0 && 0.0 <= rate <= 1.0
    ensures Scaled(weight, rate) <= 1.0
  {
  }

  function Partners(list: seq<Link>): set<Uri> { set l | l in list :: l.partner }

  lemma {:induction false} DecayedKeepsOrder(list: seq<Link>, rate: real)
    requires OneLinkEach(list) && InRange(list) && 0.0 <= rate <= 1.0
    ensures OneLinkEach(Decayed(list, rate)) && InRange(Decayed(list, rate))
    ensures Partners(Decayed(list, rate)) <= Partners(list)
    decreases |list|
  {
    if list != [] {
      var front, last := list[..|list| - 1], list[|list| - 1];
      DecayedKeepsOrder(front, rate);
      Shrinks(last.weight, rate);
      assert list == front + [last];
      AppendLink(Decayed(front, rate), front, last, rate);
    }
  }

  lemma AppendLink(rest: seq<Link>, front: seq<Link>, last: Link, rate: real)
    requires OneLinkEach(front + [last]) && OneLinkEach(rest) && Partners(rest) <= Partners(front)
    ensures var now := rest + [last.(weight := Scaled(last.weight, rate))];
            OneLinkEach(now) && Partners(now) <= Partners(front + [last]) && Partners(rest) <= Partners(front + [last])
    ensures last.partner !in Partners(front)
  {
    var list := front + [last];
    assert list[|front|] == last;
    forall l | l in front ensures l.partner != last.partner {
      var i :| 0 <= i < |front| && front[i] == l;
      assert list[i] == l;
    }
    forall l | l in rest ensures l.partner != last.partner {
      assert l.partner in Partners(rest);
    }
    var now := rest + [last.(weight := Scaled(last.weight, rate))];
    forall p | p in Partners(now) ensures p in Partners(list) {
      assert p in Partners(rest) || p == last.partner;
      assert p in Partners(front) ==> p in Partners(list);
      assert last in list;
    }
  }

  lemma {:induction false} DecayedListWeight(list: seq<Link>, b: Uri, rate: real)
    requires OneLinkEach(list) && InRange(list) && 0.0 <= rate <= 1.0
    ensures ListWeight(Decayed(list, rate), b) == DecayedWeight(ListWeight(list, b), rate)
    decreases |list|
  {
    if list != [] {
      var front, last := list[..|list| - 1], list[|list| - 1];
      assert list == front + [last];
      DecayedKeepsOrder(front, rate);
      DecayedListWeight(front, b, rate);
      DecayedLast(front, last, b, rate);
    }
  }

  lemma DecayedLast(front: seq<Link>, last: Link, b: Uri, rate: real)
    requires OneLinkEach(front + [last]) && OneLinkEach(Decayed(front, rate))
    requires Partners(Decayed(front, rate)) <= Partners(front)
    requires ListWeight(Decayed(front, rate), b) == DecayedWeight(ListWeight(front, b), rate)
    ensures ListWeight(Decayed(front + [last], rate), b) == DecayedWeight(ListWeight(front + [last], b), rate)
  {
    var rest := Decayed(front, rate);
    assert (front + [last])[..|front|] == front;
    WeightOfLast(front, last, b);
    AppendLink(rest, front, last, rate);
    WeightOfLast(rest, last.(weight := Scaled(last.weight, rate)), b);
  }

  lemma WeightOfLast(front: seq<Link>, last: Link, b: Uri)
    requires OneLinkEach(front + [last])
    ensures ListWeight(front + [last], b) == if last.partner == b then last.weight else ListWeight(front, b)
  {
    var list := front + [last];
    assert list[..|front|] == front && list[|front|] == last;
    if last.partner == b { PositionIsUnique(list, |front|); }
  }

  /** Decay scales every weight by the same factor and forgets those that fall to the floor; no empty list stays. */
  lemma DecayScalesAll(t: Table, rate: real)
    requires Sound(t) && 0.0 <= rate <= 1.0
    ensures Sound(Decay(t, rate)) && forall a :: a in Decay(t, rate) ==> Decay(t, rate)[a] != []
    ensures forall x, y :: Weight(Decay(t, rate), x, y) == DecayedWeight(Weight(t, x, y), rate)
  {
    forall x, y ensures Weight(Decay(t, rate), x, y) == DecayedWeight(Weight(t, x, y), rate) {
      DecayedListWeight(Links(t, x), y, rate);
    }
    forall a | a in Decay(t, rate) ensures OneLinkEach(Decay(t, rate)[a]) && InRange(Decay(t, rate)[a]) {
      DecayedKeepsOrder(t[a], rate);
    }
  }

  // ------------------------------------------------------------------ whole histories

  datatype Event = CoPatched(a: Uri, b: Uri) | Depends(source: Uri, dependent: Uri) | Decays(rate: real)

  function Apply(t: Table, e: Event): Table
  {
    match e
    case CoPatched(a, b) => CoPatch(t, a, b)
    case Depends(a, b) => Record(t, a, b, OneWay)
    case Decays(rate) => Decay(t, rate)
  }

  /** A table after a history of events. */
  function Replay(t: Table, history: seq<Event>): Table
  {
    if history == [] then t else Apply(Replay(t, history[..|history| - 1]), history[|history| - 1])
  }

  /** What an event does to the weight of one pair. */
  function PairStep(e: Event, w: real, x: Uri, y: Uri): real
  {
    match e
    case CoPatched(a, b) =>
      var once := if x == a && y == b then Nudged(w) else w;
      if x == b && y == a then Nudged(once) else once
    case Depends(a, b) => if x == a && y == b then Nudged(w) else w
    case Decays(rate) => DecayedWeight(w, rate)
  }

  /** What one pair's weight should become, from the events alone and one number. */
  function PairWeight(w: real, history: seq<Event>, x: Uri, y: Uri): real
  {
    if history == [] then w
    else PairStep(history[|history| - 1], PairWeight(w, history[..|history| - 1], x, y), x, y)
  }

  ghost predicate Rated(history: seq<Event>) { forall e :: e in history && e.Decays? ==> 0.0 <= e.rate <= 1.0 }

  /** The lists never mix pairs up: after any history each weight is what its own events make it. */
  lemma {:induction false} ReplayIsPairwise(t: Table, history: seq<Event>, x: Uri, y: Uri)
    requires Sound(t) && Rated(history)
    ensures Sound(Replay(t, history)) && Weight(Replay(t, history), x, y) == PairWeight(Weight(t, x, y), history, x, y)
    decreases |history|
  {
    if history != [] {
      var n := |history| - 1;
      assert history[n] in history;
      ReplayIsPairwise(t, history[..n], x, y);
      ApplyIsPairwise(Replay(t, history[..n]), history[n], x, y);
    }
  }

  lemma ApplyIsPairwise(t: Table, e: Event, x: Uri, y: Uri)
    requires Sound(t) && (e.Decays? ==> 0.0 <= e.rate <= 1.0)
    ensures Sound(Apply(t, e)) && Weight(Apply(t, e), x, y) == PairStep(e, Weight(t, x, y), x, y)
  {
    match e
    case CoPatched(a, b) => CoPatchMoves(t, a, b, x, y);
    case Depends(a, b) => RecordMovesOneWeight(t, a, b, OneWay, x, y);
    case Decays(rate) => DecayScalesAll(t, rate);
  }

  lemma CoPatchMoves(t: Table, a: Uri, b: Uri, x: Uri, y: Uri)
    requires Sound(t)
    ensures Sound(CoPatch(t, a, b))
            && Weight(CoPatch(t, a, b), x, y) == PairStep(CoPatched(a, b), Weight(t, x, y), x, y)
  {
    var once := Record(t, a, b, Symmetric);
    RecordMovesOneWeight(t, a, b, Symmetric, x, y);
    RecordMovesOneWeight(once, b, a, Symmetric, x, y);
  }

  // ------------------------------------------------------------------ co-patches without decay

  function CoPatches(a: Uri, b: Uri, n: nat): (r: seq<Event>)
    ensures |r| == n && forall e :: e in r ==> e == CoPatched(a, b)
  {
    if n == 0 then [] else CoPatches(a, b, n - 1) + [CoPatched(a, b)]
  }

  function FourFifths(n: nat): (r: real)
    ensures 0.0 < r <= 1.0
  {
    if n == 0 then 1.0 else FourFifths(n - 1) * 0.8
  }

  /** `w` after `n` steps of a fifth of the way to 1. */
  function Closer(w: real, n: nat): real { 1.0 - FourFifths(n) * (1.0 - w) }

  ghost predicate SamePair(x: Uri, y: Uri, a: Uri, b: Uri) { (x == a && y == b) || (x == b && y == a) }

  lemma {:induction false} PairConverges(w: real, a: Uri, b: Uri, n: nat, x: Uri, y: Uri)
    requires a != b
    ensures PairWeight(w, CoPatches(a, b, n), x, y) == if SamePair(x, y, a, b) then Closer(w, n) else w
    decreases n
  {
    if n > 0 {
      PairConverges(w, a, b, n - 1, x, y);
    }
  }

  /** `n` co-patches of two URIs leave (4/5)^n of what both weights lacked to 1, and change no other pair. */
  lemma CoPatchesConverge(t: Table, history: seq<Event>, a: Uri, b: Uri, n: nat, x: Uri, y: Uri)
    requires Sound(t) && a != b && history == CoPatches(a, b, n)
    ensures Weight(Replay(t, history), x, y) == if SamePair(x, y, a, b) then Closer(Weight(t, x, y), n)
            else Weight(t, x, y)
  {
    ReplayIsPairwise(t, history, x, y);
    PairConverges(Weight(t, x, y), a, b, n, x, y);
  }

  lemma {:induction false} FourFifthsFalls(m: nat, n: nat)
    requires m <= n
    ensures FourFifths(n) <= FourFifths(m)
    decreases n
  {
    if m < n { FourFifthsFalls(m, n - 1); }
  }

  /** Two URIs never seen before are 0.80 entangled from exactly the eighth co-patch on. */
  lemma EightCoPatches(a: Uri, b: Uri, n: nat)
    requires a != b
    ensures Weight(Replay(map[], CoPatches(a, b, n)), a, b) >= 0.80 <==> n >= 8
  {
    CoPatchesConverge(map[], CoPatches(a, b, n), a, b, n, a, b);
    if n >= 8 { FourFifthsFalls(8, n); } else { FourFifthsFalls(n, 7); }
  }
}
