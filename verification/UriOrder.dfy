/**
  The two orders of a sweep, spelled out: canonical strings byte by byte, and parsed URIs by
  path, query and canonical string.  Parsing keeps the string and drops empty segments.  The
  orders agree where the string is the joined path and every byte of a segment is above the
  slash; each of the two conditions, and that there is no query, is needed.
*/
module UriOrder {
  import opened Prelude
  import opened Sleeptime

  const SLASH: nat := 47
  const HYPHEN: nat := 45
  const QUESTION: nat := 63

  type Bytes = seq<nat>

  /** Strictly before, byte by byte, a prefix first. */
  predicate Less(a: Bytes, b: Bytes)
  {
    if a == [] then b != [] else b != [] && (a[0] < b[0] || (a[0] == b[0] && Less(a[1..], b[1..])))
  }

  // ------------------------------------------------------------------ parsing

  /** Where the first `b` stands, or the length. */
  function Find(b: nat, s: Bytes): (i: nat)
    ensures i <= |s| && b !in s[..i] && (i < |s| ==> s[i] == b)
  {
    if s == [] || s[0] == b then 0 else 1 + Find(b, s[1..])
  }

  /** The segments between slashes, the empty ones dropped. */
  function Segments(s: Bytes): (path: seq<Bytes>)
    ensures forall i :: 0 <= i < |path| ==> path[i] != [] && SLASH !in path[i]
    decreases |s|
  {
    if s == [] then []
    else
      var n := Find(SLASH, s);
      (if n == 0 then [] else [s[..n]]) + (if n == |s| then [] else Segments(s[n + 1..]))
  }

  /** `UriInner::from_string`: the path is what stands before the first question mark. */
  function PathOf(u: Uri): seq<Bytes> { Segments(u.canonical[..Find(QUESTION, u.canonical)]) }

  function QueryOf(u: Uri): Option<Bytes>
  {
    var n := Find(QUESTION, u.canonical);
    if n == |u.canonical| then None else Some(u.canonical[n + 1..])
  }

  // ------------------------------------------------------------------ the two orders

  /** Paths in the derived order: segment by segment. */
  predicate PathLess(a: seq<Bytes>, b: seq<Bytes>)
  {
    if a == [] then b != [] else b != [] && (Less(a[0], b[0]) || (a[0] == b[0] && PathLess(a[1..], b[1..])))
  }

  /**
    The derived order of parsed URIs: path, then query, then canonical string.  `rank` says where
    a query stands once it is parsed; one that does not parse ranks with none.
  */
  predicate ParsedLess(a: Uri, b: Uri, rank: Option<Bytes> -> real)
  {
    || PathLess(PathOf(a), PathOf(b))
    || (PathOf(a) == PathOf(b)
        && (rank(QueryOf(a)) < rank(QueryOf(b))
            || (rank(QueryOf(a)) == rank(QueryOf(b)) && Less(a.canonical, b.canonical))))
  }

  function SourceOrders(rank: Option<Bytes> -> real): Orders
  {
    Orders((a: Uri, b: Uri) => Less(a.canonical, b.canonical), (a: Uri, b: Uri) => ParsedLess(a, b, rank))
  }

  lemma {:induction false} LessAsymmetric(a: Bytes, b: Bytes)
    ensures !(Less(a, b) && Less(b, a))
    decreases |a|
  {
    if a != [] && b != [] { LessAsymmetric(a[1..], b[1..]); }
  }

  lemma {:induction false} LessTransitive(a: Bytes, b: Bytes, c: Bytes)
    requires Less(a, b) && Less(b, c)
    ensures Less(a, c)
    decreases |a|
  {
    if a != [] && a[0] == b[0] && b[0] == c[0] { LessTransitive(a[1..], b[1..], c[1..]); }
  }

  lemma {:induction false} PathLessTransitive(a: seq<Bytes>, b: seq<Bytes>, c: seq<Bytes>)
    requires PathLess(a, b) && PathLess(b, c)
    ensures PathLess(a, c)
    decreases |a|
  {
    if a != [] {
      if Less(a[0], b[0]) && Less(b[0], c[0]) {
        LessTransitive(a[0], b[0], c[0]);
      } else if a[0] == b[0] && b[0] == c[0] {
        PathLessTransitive(a[1..], b[1..], c[1..]);
      }
    }
  }

  lemma ParsedLessTransitive(a: Uri, b: Uri, c: Uri, rank: Option<Bytes> -> real)
    requires ParsedLess(a, b, rank) && ParsedLess(b, c, rank)
    ensures ParsedLess(a, c, rank)
  {
    if PathLess(PathOf(a), PathOf(b)) && PathLess(PathOf(b), PathOf(c)) {
      PathLessTransitive(PathOf(a), PathOf(b), PathOf(c));
    }
    if Less(a.canonical, b.canonical) && Less(b.canonical, c.canonical) {
      LessTransitive(a.canonical, b.canonical, c.canonical);
    }
  }

  /** Both orders are what a sweep needs them to be. */
  lemma SourceOrdersAreStrict(rank: Option<Bytes> -> real)
    ensures Strict(SourceOrders(rank))
  {
    var o := SourceOrders(rank);
    forall a, b ensures !(o.text(a, b) && o.text(b, a)) { LessAsymmetric(a.canonical, b.canonical); }
    forall a, b, c | o.parsed(a, b) && o.parsed(b, c) ensures o.parsed(a, c) { ParsedLessTransitive(a, b, c, rank); }
  }

  lemma {:induction false} LessIrreflexive(a: Bytes)
    ensures !Less(a, a)
  {
    if a != [] { LessIrreflexive(a[1..]); }
  }

  lemma {:induction false} PathLessIrreflexive(a: seq<Bytes>)
    ensures !PathLess(a, a)
  {
    if a != [] {
      LessIrreflexive(a[0]);
      PathLessIrreflexive(a[1..]);
    }
  }

  /** Of URIs of one path the query that ranks lower comes first, and of one rank the lower string. */
  lemma QueriesDecide(a: Uri, b: Uri, rank: Option<Bytes> -> real)
    requires PathOf(a) == PathOf(b)
    ensures rank(QueryOf(a)) < rank(QueryOf(b)) ==> ParsedLess(a, b, rank) && !ParsedLess(b, a, rank)
    ensures rank(QueryOf(a)) == rank(QueryOf(b)) ==> (ParsedLess(a, b, rank) <==> Less(a.canonical, b.canonical))
  {
    PathLessIrreflexive(PathOf(a));
  }

  // ------------------------------------------------------------------ when they agree

  /** What follows the first segment in a joined path, slashes included. */
  function Rest(path: seq<Bytes>): Bytes { if path == [] then [] else [SLASH] + path[0] + Rest(path[1..]) }

  /** The segments joined by single slashes. */
  function Joined(path: seq<Bytes>): Bytes { if path == [] then [] else path[0] + Rest(path[1..]) }

  ghost predicate AboveSlash(b: Bytes) { forall i :: 0 <= i < |b| ==> b[i] > SLASH }

  ghost predicate PlainPath(path: seq<Bytes>) { forall i :: 0 <= i < |path| ==> path[i] != [] && AboveSlash(path[i]) }

  /** The canonical string is the joined path and nothing else, and no byte of a segment is below the slash. */
  ghost predicate Plain(u: Uri) { u.canonical == Joined(PathOf(u)) && PlainPath(PathOf(u)) }

  /** Nothing follows, or a slash does. */
  ghost predicate Tail(b: Bytes) { b == [] || b[0] == SLASH }

  /** A segment is compared in full before what follows it has a say. */
  lemma {:induction false} SegmentsFirst(a: Bytes, s: Bytes, b: Bytes, t: Bytes)
    requires AboveSlash(a) && AboveSlash(b) && Tail(s) && Tail(t)
    ensures Less(a + s, b + t) <==> if a == b then Less(s, t) else Less(a, b)
    decreases |a|
  {
    if a == [] {
      assert a + s == s;
      if b == [] { assert b + t == t; }
    } else if b == [] {
      assert b + t == t;
    } else {
      assert (a + s)[1..] == a[1..] + s && (b + t)[1..] == b[1..] + t;
      assert a == [a[0]] + a[1..] && b == [b[0]] + b[1..];
      SegmentsFirst(a[1..], s, b[1..], t);
    }
  }

  lemma LessBehind(x: nat, a: Bytes, b: Bytes)
    ensures Less([x] + a, [x] + b) <==> Less(a, b)
    ensures [x] + a == [x] + b <==> a == b
  {
  }

  lemma {:induction false} RestAgrees(a: seq<Bytes>, b: seq<Bytes>)
    requires PlainPath(a) && PlainPath(b)
    ensures Less(Rest(a), Rest(b)) <==> PathLess(a, b)
    ensures Rest(a) == Rest(b) ==> a == b
    decreases |a|
  {
    if a != [] && b != [] {
      var s, t := Rest(a[1..]), Rest(b[1..]);
      RestAgrees(a[1..], b[1..]);
      assert Rest(a) == [SLASH] + (a[0] + s) && Rest(b) == [SLASH] + (b[0] + t);
      LessBehind(SLASH, a[0] + s, b[0] + t);
      SegmentsFirst(a[0], s, b[0], t);
      LessAsymmetric(a[0], b[0]);
      if Rest(a) == Rest(b) {
        SegmentsSplit(a[0], s, b[0], t);
        assert a == [a[0]] + a[1..] && b == [b[0]] + b[1..];
      }
    }
  }

  /** Where a segment ends can be told from the string. */
  lemma {:induction false} SegmentsSplit(a: Bytes, s: Bytes, b: Bytes, t: Bytes)
    requires AboveSlash(a) && AboveSlash(b) && Tail(s) && Tail(t) && a + s == b + t
    ensures a == b && s == t
    decreases |a|
  {
    assert a == [] ==> a + s == s;
    assert b == [] ==> b + t == t;
    assert a != [] ==> (a + s)[0] == a[0];
    assert b != [] ==> (b + t)[0] == b[0];
    if a != [] && b != [] {
      assert (a + s)[1..] == a[1..] + s && (b + t)[1..] == b[1..] + t;
      SegmentsSplit(a[1..], s, b[1..], t);
      assert a == [a[0]] + a[1..] && b == [b[0]] + b[1..];
    }
  }

  lemma JoinedAgrees(a: seq<Bytes>, b: seq<Bytes>)
    requires PlainPath(a) && PlainPath(b)
    ensures Less(Joined(a), Joined(b)) <==> PathLess(a, b)
  {
    if a != [] && b != [] {
      SegmentsFirst(a[0], Rest(a[1..]), b[0], Rest(b[1..]));
      LessAsymmetric(a[0], b[0]);
      RestAgrees(a[1..], b[1..]);
    }
  }

  /** Plain URIs compare as strings as they do once parsed. */
  lemma OrdersAgree(a: Uri, b: Uri, rank: Option<Bytes> -> real)
    requires Plain(a) && Plain(b)
    ensures Less(a.canonical, b.canonical) <==> ParsedLess(a, b, rank)
  {
    JoinedAgrees(PathOf(a), PathOf(b));
    if PathOf(a) == PathOf(b) { LessAsymmetric(a.canonical, b.canonical); }
  }

  /** Then a sweep with any batch limit covers the set. */
  lemma PlainPathsAreCovered(listing: seq<Uri>, batch: nat, rank: Option<Bytes> -> real)
    requires Sorted(listing, SourceOrders(rank)) && batch >= 1 && forall u :: u in listing ==> Plain(u)
    ensures Covered(listing, batch, SourceOrders(rank))
  {
    var o, step := SourceOrders(rank), PageLimit(batch);
    SourceOrdersAreStrict(rank);
    forall k: nat | Start(k, step) < |listing| ensures PageAgrees(listing, k, step, o) {
      PlainPageAgrees(listing, k, step, rank);
    }
    SweepCoversIff(listing, batch, o);
  }

  lemma PlainPageAgrees(listing: seq<Uri>, k: nat, step: nat, rank: Option<Bytes> -> real)
    requires Sorted(listing, SourceOrders(rank)) && Start(k, step) < |listing|
    requires forall u :: u in listing ==> Plain(u)
    ensures PageAgrees(listing, k, step, SourceOrders(rank))
  {
    var o, p := SourceOrders(rank), Start(k, step);
    if p > 0 {
      forall u | u in Take(listing[p..], step) ensures o.parsed(listing[p - 1], u) {
        var j :| p <= j < |listing| && listing[j] == u;
        assert o.text(listing[p - 1], listing[j]) && listing[p - 1] in listing;
        OrdersAgree(listing[p - 1], u, rank);
      }
    }
  }

  /** Every path of plain segments without a question mark is the parse of its joined string. */
  lemma ParsesBack(path: seq<Bytes>)
    requires PlainPath(path) && forall i :: 0 <= i < |path| ==> QUESTION !in path[i]
    ensures PathOf(Uri(Joined(path))) == path && Plain(Uri(Joined(path)))
  {
    NoQuestion(path);
    var s := Joined(path);
    FindNone(QUESTION, s);
    assert s[..|s|] == s;
    if path != [] {
      RestParsesBack(path[0], path[1..]);
      assert path == [path[0]] + path[1..];
    }
  }

  lemma {:induction false} FindAfter(b: nat, a: Bytes, s: Bytes)
    requires b !in a
    ensures Find(b, a + s) == |a| + Find(b, s)
    decreases |a|
  {
    if a == [] {
      assert a + s == s;
    } else {
      assert (a + s)[0] == a[0] && (a + s)[1..] == a[1..] + s;
      FindAfter(b, a[1..], s);
    }
  }

  lemma FindNone(b: nat, s: Bytes)
    requires b !in s
    ensures Find(b, s) == |s|
  {
    FindAfter(b, s, []);
    assert s + [] == s;
  }

  /** A segment up to its slash, empty or not, and then the rest. */
  lemma SegmentThen(a: Bytes, s: Bytes)
    requires SLASH !in a
    ensures Segments(a + ([SLASH] + s)) == (if a == [] then [] else [a]) + Segments(s)
  {
    var all := a + ([SLASH] + s);
    FindAfter(SLASH, a, [SLASH] + s);
    assert all[..|a|] == a && all[|a| + 1..] == s;
  }

  lemma LastSegment(a: Bytes)
    requires a != [] && SLASH !in a
    ensures Segments(a) == [a]
  {
    FindNone(SLASH, a);
    assert a[..|a|] == a;
  }

  lemma WithoutQuery(c: Bytes)
    requires QUESTION !in c
    ensures PathOf(Uri(c)) == Segments(c)
  {
    FindNone(QUESTION, c);
    assert c[..|c|] == c;
  }

  lemma {:induction false} NoQuestion(path: seq<Bytes>)
    requires forall i :: 0 <= i < |path| ==> QUESTION !in path[i]
    ensures QUESTION !in Rest(path) && QUESTION !in Joined(path)
    decreases |path|
  {
    if path != [] {
      NoQuestion(path[1..]);
    }
  }

  lemma {:induction false} RestParsesBack(first: Bytes, rest: seq<Bytes>)
    requires first != [] && AboveSlash(first) && PlainPath(rest)
    ensures Segments(first + Rest(rest)) == [first] + rest
    decreases |rest|
  {
    if rest == [] {
      assert first + Rest(rest) == first;
      LastSegment(first);
    } else {
      var s := rest[0] + Rest(rest[1..]);
      assert Rest(rest) == [SLASH] + s && rest == [rest[0]] + rest[1..];
      SegmentThen(first, s);
      RestParsesBack(rest[0], rest[1..]);
    }
  }

  // ------------------------------------------------------------------ two entries, one never visited

  /** One entry a page, and two entries the orders disagree about: the sweep never gets to the second. */
  lemma NeverVisited(first: Uri, second: Uri, rank: Option<Bytes> -> real)
    requires Less(first.canonical, second.canonical) && !ParsedLess(first, second, rank)
    ensures Sorted([first, second], SourceOrders(rank)) && !Covered([first, second], 1, SourceOrders(rank))
  {
    var o, listing := SourceOrders(rank), [first, second];
    SourceOrdersAreStrict(rank);
    assert Start(1, 1) == 1 && listing[1..] == [second];
    assert second in Take(listing[1..], 1) && !o.parsed(listing[0], second);
    assert !PageAgrees(listing, 1, 1, o);
    SweepCoversIff(listing, 1, o);
  }

  /** Two strings that part at position `n`. */
  lemma {:induction false} PartAt(a: Bytes, b: Bytes, n: nat)
    requires n < |a| && n < |b| && a[..n] == b[..n] && a[n] < b[n]
    ensures Less(a, b)
    decreases n
  {
    if n > 0 {
      assert a[0] == a[..n][0] && b[0] == b[..n][0];
      assert a[1..][..n - 1] == a[..n][1..] && b[1..][..n - 1] == b[..n][1..];
      PartAt(a[1..], b[1..], n - 1);
    }
  }

  /** `t/a-b` and `t/a/b`: a byte below the slash. */
  const HYPHENATED: Bytes := [116, SLASH, 97, HYPHEN, 98]
  const NESTED: Bytes := [116, SLASH, 97, SLASH, 98]

  /** `t//b` and `t/a`: a canonical string that is not the joined path, every byte of a segment above the slash. */
  const DOUBLED: Bytes := [116, SLASH, SLASH, 98]
  const SINGLE: Bytes := [116, SLASH, 97]

  /** `t/a/b` and `t/a?`: a query, if only an empty one. */
  const QUERIED: Bytes := [116, SLASH, 97, QUESTION]

  lemma TwoSegments(a: Bytes, b: Bytes)
    requires a != [] && b != [] && SLASH !in a + b && QUESTION !in a + b
    ensures PathOf(Uri(a + ([SLASH] + b))) == [a, b]
  {
    WithoutQuery(a + ([SLASH] + b));
    SegmentThen(a, b);
    LastSegment(b);
  }

  lemma ThreeSegments(a: Bytes, b: Bytes, c: Bytes)
    requires a != [] && c != [] && SLASH !in a + b + c && QUESTION !in a + b + c
    ensures PathOf(Uri(a + ([SLASH] + (b + ([SLASH] + c))))) == [a] + (if b == [] then [] else [b]) + [c]
  {
    var s := b + ([SLASH] + c);
    assert QUESTION !in s && SLASH !in a && SLASH !in b;
    WithoutQuery(a + ([SLASH] + s));
    SegmentThen(a, s);
    SegmentThen(b, c);
    LastSegment(c);
  }

  lemma HyphenatedPath()
    ensures PathOf(Uri(HYPHENATED)) == [[116]] + [[97, HYPHEN, 98]]
  {
    TwoSegments([116], [97, HYPHEN, 98]);
    assert HYPHENATED == [116] + ([SLASH] + [97, HYPHEN, 98]);
  }

  lemma NestedPath()
    ensures PathOf(Uri(NESTED)) == [[116]] + [[97], [98]]
  {
    ThreeSegments([116], [97], [98]);
    assert NESTED == [116] + ([SLASH] + ([97] + ([SLASH] + [98])));
  }

  lemma DoubledPath()
    ensures PathOf(Uri(DOUBLED)) == [[116]] + [[98]]
  {
    ThreeSegments([116], [], [98]);
    assert DOUBLED == [116] + ([SLASH] + ([] + ([SLASH] + [98])));
  }

  lemma SinglePath()
    ensures PathOf(Uri(SINGLE)) == [[116]] + [[97]] && Joined([[116]] + [[97]]) == SINGLE
  {
    TwoSegments([116], [97]);
    assert SINGLE == [116] + ([SLASH] + [97]);
    assert ([[116]] + [[97]])[1..] == [[97]] && Rest([[97]]) == [SLASH] + [97] + Rest([]);
  }

  lemma QueriedPath()
    ensures PathOf(Uri(QUERIED)) == PathOf(Uri(SINGLE))
  {
    FindAfter(QUESTION, SINGLE, [QUESTION]);
    assert QUERIED == SINGLE + [QUESTION] && QUERIED[..3] == SINGLE;
    WithoutQuery(SINGLE);
  }

  lemma BehindTenant(t: Bytes, a: seq<Bytes>, b: seq<Bytes>)
    ensures PathLess([t] + a, [t] + b) <==> PathLess(a, b)
  {
    LessAsymmetric(t, t);
  }

  lemma NestedNeverVisited(rank: Option<Bytes> -> real)
    ensures Sorted([Uri(HYPHENATED), Uri(NESTED)], SourceOrders(rank))
    ensures !Covered([Uri(HYPHENATED), Uri(NESTED)], 1, SourceOrders(rank))
  {
    PartAt(HYPHENATED, NESTED, 3);
    HyphenatedPath();
    NestedPath();
    BehindTenant([116], [[97, HYPHEN, 98]], [[97], [98]]);
    assert [97, HYPHEN, 98] != [97] && !Less([97, HYPHEN, 98], [97]) by { assert [97][1..] == []; }
    NeverVisited(Uri(HYPHENATED), Uri(NESTED), rank);
  }

  lemma DoubledSlashNeverVisited(rank: Option<Bytes> -> real)
    ensures PlainPath(PathOf(Uri(DOUBLED))) && Plain(Uri(SINGLE))
    ensures Sorted([Uri(DOUBLED), Uri(SINGLE)], SourceOrders(rank))
    ensures !Covered([Uri(DOUBLED), Uri(SINGLE)], 1, SourceOrders(rank))
  {
    PartAt(DOUBLED, SINGLE, 2);
    DoubledPath();
    SinglePath();
    BehindTenant([116], [[98]], [[97]]);
    NeverVisited(Uri(DOUBLED), Uri(SINGLE), rank);
  }

  lemma QueriedNeverVisited(rank: Option<Bytes> -> real)
    ensures PlainPath(PathOf(Uri(NESTED))) && PlainPath(PathOf(Uri(QUERIED)))
    ensures Sorted([Uri(NESTED), Uri(QUERIED)], SourceOrders(rank))
    ensures !Covered([Uri(NESTED), Uri(QUERIED)], 1, SourceOrders(rank))
  {
    PartAt(NESTED, QUERIED, 3);
    NestedPath();
    SinglePath();
    QueriedPath();
    BehindTenant([116], [[97], [98]], [[97]]);
    NotLonger();
    NeverVisited(Uri(NESTED), Uri(QUERIED), rank);
  }

  lemma NotLonger()
    ensures !PathLess([[97], [98]], [[97]]) && [[116]] + [[97], [98]] != [[116]] + [[97]]
  {
    LessAsymmetric([97], [97]);
    assert [[97], [98]][1..] == [[98]] && [[97]][1..] == [];
  }
}
