/**
  The paginated background sweep: a durable cursor, pages scanned in the order of canonical
  strings, and a filter that compares parsed URIs.  The two orders need not agree.
*/
module Sleeptime {
  import opened Prelude

  /** A URI, by the bytes of its canonical string after the scheme: the string it was parsed from. */
  datatype Uri = Uri(canonical: seq<nat>)

  /**
    The two strict orders a sweep meets: `text` of canonical strings, in the store's query, and
    `parsed`, derived for parsed URIs.
  */
  datatype Orders = Orders(text: (Uri, Uri) -> bool, parsed: (Uri, Uri) -> bool)

  const MAX_PAGE: nat := 1000
  const MAX_ATTEMPT: nat := 4294967295

  // ------------------------------------------------------------------ one run

  datatype Progress = Progress(cursor: Option<Uri>, watermark: Option<Uri>, attempt: nat, failed: bool)

  function Default(): Progress { Progress(None, None, 0, false) }

  /** How a run goes; any error may strike, and a failed scan still tries to record itself. */
  datatype Fate = Fine | Refused | LoadFails | ScanFails(saved: bool) | TaskFails | SaveFails

  function Take<T>(xs: seq<T>, n: nat): seq<T> { if |xs| <= n then xs else xs[..n] }

  /** The conditions of the store's query and of the two filters after it. */
  datatype Condition = Always | TextAfter(cursor: Uri) | After(cursor: Uri) | NotAfter(watermark: Uri)

  predicate Meets(u: Uri, c: Condition, o: Orders)
  {
    match c
    case Always => true
    case TextAfter(cursor) => o.text(cursor, u)
    case After(cursor) => o.parsed(cursor, u)
    case NotAfter(watermark) => !o.parsed(watermark, u)
  }

  function Where(us: seq<Uri>, c: Condition, o: Orders): (r: seq<Uri>)
    ensures |r| <= |us|
  {
    if us == [] then [] else (if Meets(us[0], c, o) then [us[0]] else []) + Where(us[1..], c, o)
  }

  function PageLimit(batch: nat): (n: nat)
    ensures 1 <= n <= MAX_PAGE
  {
    if batch < 1 then 1 else if batch > MAX_PAGE then MAX_PAGE else batch
  }

  /** The store's page: what lies after the cursor's string, in the order of strings. */
  function Scan(listing: seq<Uri>, cursor: Option<Uri>, limit: nat, o: Orders): seq<Uri>
  {
    Take(Where(listing, if cursor.None? then Always else TextAfter(cursor.value), o), limit)
  }

  function CursorFilter(cursor: Option<Uri>): Condition { if cursor.None? then Always else After(cursor.value) }

  function WatermarkFilter(watermark: Option<Uri>): Condition
  {
    if watermark.None? then Always else NotAfter(watermark.value)
  }

  function Entries(listing: seq<Uri>, cursor: Option<Uri>, watermark: Option<Uri>, batch: nat, o: Orders): (r: seq<Uri>)
  {
    var page := Scan(listing, cursor, PageLimit(batch), o);
    Take(Where(Where(page, CursorFilter(cursor), o), WatermarkFilter(watermark), o), batch)
  }

  /** `run_once`: the durable progress afterwards, and the entries every task was run on. */
  function Next(d: Progress, listing: seq<Uri>, batch: nat, fate: Fate, o: Orders): (Progress, seq<Uri>)
  {
    var s := d.(attempt := if d.attempt < MAX_ATTEMPT then d.attempt + 1 else MAX_ATTEMPT);
    match fate
    case Fine =>
      var entries := Entries(listing, d.cursor, d.watermark, batch, o);
      var wrapped := if entries == [] && s.cursor.Some? then s.(cursor := None, watermark := None, attempt := 0) else s;
      ((if entries == [] then wrapped else wrapped.(cursor := Some(entries[|entries| - 1]))).(failed := false), entries)
    case ScanFails(saved) => (if saved then s.(failed := true) else d, [])
    case _ => (d, [])
  }

  /** `SleeptimeExecutor` with its progress store. */
  class Executor {
    var saved: Option<Progress>

    constructor ()
      ensures saved == None && Durable() == Default()
    {
      saved := None;
    }

    function Durable(): Progress
      reads this
    {
      if saved.Some? then saved.value else Default()
    }

    /** `listing` is what the store holds in scope, `batch` the positive batch limit. */
    method RunOnce(listing: seq<Uri>, batch: nat, fate: Fate, o: Orders) returns (ok: bool, visited: seq<Uri>)
      modifies this
      ensures ok == fate.Fine?
      ensures (Durable(), visited) == Next(old(Durable()), listing, batch, fate, o)
    {
      if fate.Refused? || fate.LoadFails? { return false, []; }
      var state := Durable();
      state := state.(attempt := if state.attempt < MAX_ATTEMPT then state.attempt + 1 else MAX_ATTEMPT);
      if fate.ScanFails? {
        if fate.saved { saved := Some(state.(failed := true)); }
        return false, [];
      }
      var entries := Entries(listing, state.cursor, state.watermark, batch, o);
      if entries == [] && state.cursor.Some? {
        state := state.(cursor := None, watermark := None, attempt := 0);
      }
      if fate.TaskFails? { return false, []; }
      if entries != [] { state := state.(cursor := Some(entries[|entries| - 1])); }
      state := state.(failed := false);
      if fate.SaveFails? { return false, []; }
      saved := Some(state);
      return true, entries;
    }
  }

  lemma {:induction false} WhereIs(us: seq<Uri>, c: Condition, o: Orders)
    ensures forall u :: u in Where(us, c, o) <==> u in us && Meets(u, c, o)
    decreases |us|
  {
    if us != [] { WhereIs(us[1..], c, o); }
  }

  /** Nothing is visited that the parsed order does not put after the cursor. */
  lemma EntriesAreLater(listing: seq<Uri>, cursor: Option<Uri>, watermark: Option<Uri>, batch: nat, o: Orders)
    ensures forall u :: u in Entries(listing, cursor, watermark, batch, o) ==>
            u in listing && Meets(u, CursorFilter(cursor), o)
  {
    var page := Scan(listing, cursor, PageLimit(batch), o);
    WhereIs(listing, if cursor.None? then Always else TextAfter(cursor.value), o);
    WhereIs(page, CursorFilter(cursor), o);
    WhereIs(Where(page, CursorFilter(cursor), o), WatermarkFilter(watermark), o);
  }

  lemma {:induction false} WhereAll(us: seq<Uri>, c: Condition, o: Orders)
    ensures Where(us, c, o) == us <==> forall u :: u in us ==> Meets(u, c, o)
    decreases |us|
  {
    if us != [] {
      WhereIs(us[1..], c, o);
      WhereAll(us[1..], c, o);
      assert us == [us[0]] + us[1..];
      if Meets(us[0], c, o) { assert Where(us, c, o)[1..] == Where(us[1..], c, o); }
    }
  }

  // ------------------------------------------------------------------ runs over a fixed set

  /** Where the progress stands, and what each run so far visited. */
  type History = (Progress, seq<seq<Uri>>)

  function OneMore(r: History, run: Progress -> (Progress, seq<Uri>)): (h: History)
    ensures |h.1| == |r.1| + 1
  {
    (run(r.0).0, r.1 + [run(r.0).1])
  }

  function Iterate(n: nat, run: Progress -> (Progress, seq<Uri>)): (r: History)
    ensures |r.1| == n
  {
    if n == 0 then (Default(), []) else OneMore(Iterate(n - 1, run), run)
  }

  function Runner(listing: seq<Uri>, batch: nat, o: Orders): Progress -> (Progress, seq<Uri>)
  {
    d => Next(d, listing, batch, Fine, o)
  }

  /** After `n` successful runs with no progress to begin with. */
  function Runs(n: nat, listing: seq<Uri>, batch: nat, o: Orders): (r: History)
    ensures |r.1| == n
  {
    Iterate(n, Runner(listing, batch, o))
  }

  /** The order of strings never puts two URIs each before the other. */
  ghost predicate Asymmetric(o: Orders) { forall a, b :: !(o.text(a, b) && o.text(b, a)) }

  ghost predicate Transitive(o: Orders) { forall a, b, c :: o.parsed(a, b) && o.parsed(b, c) ==> o.parsed(a, c) }

  ghost predicate Strict(o: Orders) { Asymmetric(o) && Transitive(o) }

  /** The store lists a fixed set in the order of its strings. */
  ghost predicate Sorted(listing: seq<Uri>, o: Orders)
  {
    forall i, j :: 0 <= i < j < |listing| ==> o.text(listing[i], listing[j])
  }

  lemma ScanAfter(listing: seq<Uri>, p: nat, o: Orders)
    requires Sorted(listing, o) && Asymmetric(o) && p < |listing|
    ensures Where(listing, TextAfter(listing[p]), o) == listing[p + 1..]
  {
    WhereSplit(listing, p + 1, TextAfter(listing[p]), o);
  }

  lemma {:induction false} WhereSplit(us: seq<Uri>, n: nat, c: Condition, o: Orders)
    requires n <= |us|
    requires forall i :: 0 <= i < n ==> !Meets(us[i], c, o)
    requires forall i :: n <= i < |us| ==> Meets(us[i], c, o)
    ensures Where(us, c, o) == us[n..]
    decreases |us|
  {
    if us != [] {
      if n > 0 { WhereSplit(us[1..], n - 1, c, o); } else { WhereAll(us, c, o); }
    }
  }

  /** `p` entries are behind the cursor. */
  ghost predicate Stands(d: Progress, p: nat, listing: seq<Uri>)
  {
    && p <= |listing| && d.watermark.None?
    && d.cursor == if p == 0 then None else Some(listing[p - 1])
  }

  /** What a run visits: of the next page, what the parsed order too puts after the cursor. */
  lemma EntriesAt(d: Progress, p: nat, listing: seq<Uri>, batch: nat, o: Orders)
    requires Sorted(listing, o) && Asymmetric(o) && Stands(d, p, listing) && batch >= 1
    ensures Entries(listing, d.cursor, None, batch, o)
            == Where(Take(listing[p..], PageLimit(batch)), CursorFilter(d.cursor), o)
  {
    if p == 0 { WhereAll(listing, Always, o); } else { ScanAfter(listing, p - 1, o); }
    var page := Scan(listing, d.cursor, PageLimit(batch), o);
    assert page == Take(listing[p..], PageLimit(batch));
    WhereAll(Where(page, CursorFilter(d.cursor), o), Always, o);
  }

  /** The parsed order agrees that everything on the page after the `p`-th entry comes later. */
  ghost predicate AgreesAt(listing: seq<Uri>, p: nat, step: nat, o: Orders)
    requires p <= |listing|
  {
    p > 0 ==> forall u :: u in Take(listing[p..], step) ==> o.parsed(listing[p - 1], u)
  }

  /** A run visits its whole page exactly if the orders agree there; it then stands right behind it. */
  lemma RunVisitsPage(d: Progress, p: nat, listing: seq<Uri>, batch: nat, o: Orders)
    requires Sorted(listing, o) && Asymmetric(o) && Stands(d, p, listing) && batch >= 1
    ensures var (e, entries) := Next(d, listing, batch, Fine, o);
            var page := Take(listing[p..], PageLimit(batch));
            && (entries == page <==> AgreesAt(listing, p, PageLimit(batch), o))
            && (entries == page && page != [] ==> Stands(e, p + |page|, listing))
            && (p > 0 && page == [] ==> e == Default())
  {
    EntriesAt(d, p, listing, batch, o);
    WhereAll(Take(listing[p..], PageLimit(batch)), CursorFilter(d.cursor), o);
    var page := Take(listing[p..], PageLimit(batch));
    if Next(d, listing, batch, Fine, o).1 == page { PageVisited(d, p, listing, batch, o); }
    else { NothingToVisit(page, CursorFilter(d.cursor), o); }
  }

  /** Only a page that is not empty can have something left out. */
  lemma NothingToVisit(page: seq<Uri>, c: Condition, o: Orders)
    ensures page == [] ==> Where(page, c, o) == page
  {
  }

  lemma PageVisited(d: Progress, p: nat, listing: seq<Uri>, batch: nat, o: Orders)
    requires Stands(d, p, listing) && batch >= 1
    requires var page := Take(listing[p..], PageLimit(batch)); Next(d, listing, batch, Fine, o).1 == page
    ensures var e := Next(d, listing, batch, Fine, o).0;
            var page := Take(listing[p..], PageLimit(batch));
            && (page != [] ==> Stands(e, p + |page|, listing))
            && (p > 0 && page == [] ==> e == Default())
  {
  }

  /** Where page `k` starts. */
  function Start(k: nat, step: nat): nat { if k == 0 then 0 else Start(k - 1, step) + step }

  lemma {:induction false} StartIs(k: nat, step: nat)
    ensures Start(k, step) == k * step
  {
    if k > 0 { StartIs(k - 1, step); }
  }

  /** There is a page `k`, and across its first boundary the two orders agree. */
  ghost predicate PageAgrees(listing: seq<Uri>, k: nat, step: nat, o: Orders)
  {
    Start(k, step) < |listing| && AgreesAt(listing, Start(k, step), step, o)
  }

  /** Across every page boundary the two orders agree. */
  ghost predicate BoundariesAgree(listing: seq<Uri>, step: nat, o: Orders)
  {
    forall k: nat :: Start(k, step) < |listing| ==> PageAgrees(listing, k, step, o)
  }

  function Least(a: nat, b: nat): nat { if a <= b then a else b }

  function Flatten(visits: seq<seq<Uri>>): seq<Uri>
  {
    if visits == [] then [] else Flatten(visits[..|visits| - 1]) + visits[|visits| - 1]
  }

  /** The first `p` entries, once each and in order, are what the runs so far have visited, and no run was empty. */
  ghost predicate Swept(r: History, p: nat, listing: seq<Uri>)
  {
    Stands(r.0, p, listing) && Flatten(r.1) == listing[..p] && forall k :: 0 <= k < |r.1| ==> r.1[k] != []
  }

  lemma SweptNext(r: History, p: nat, listing: seq<Uri>, batch: nat, o: Orders)
    requires Sorted(listing, o) && Asymmetric(o) && batch >= 1
    requires Swept(r, p, listing) && p < |listing| && AgreesAt(listing, p, PageLimit(batch), o)
    ensures Swept(OneMore(r, Runner(listing, batch, o)), Least(p + PageLimit(batch), |listing|), listing)
  {
    var (e, entries) := Next(r.0, listing, batch, Fine, o);
    RunVisitsPage(r.0, p, listing, batch, o);
    assert (r.1 + [entries])[..|r.1|] == r.1;
    assert listing[..p] + Take(listing[p..], PageLimit(batch)) == listing[..Least(p + PageLimit(batch), |listing|)];
  }

  /** A run that finds page `k` next, with the orders agreeing there, visits it. */
  ghost predicate Advances(r: History, k: nat, listing: seq<Uri>, step: nat, run: Progress -> (Progress, seq<Uri>),
    o: Orders)
  {
    PageAgrees(listing, k, step, o) && Swept(r, Start(k, step), listing) ==>
      Swept(OneMore(r, run), Least(Start(k + 1, step), |listing|), listing)
  }

  lemma {:induction false} IterateVisitsPages(n: nat, listing: seq<Uri>, step: nat,
    run: Progress -> (Progress, seq<Uri>), o: Orders)
    requires forall k :: 0 <= k < n ==> PageAgrees(listing, k, step, o)
    requires forall r, k :: Advances(r, k, listing, step, run, o)
    ensures Swept(Iterate(n, run), Least(Start(n, step), |listing|), listing)
    decreases n
  {
    if n > 0 {
      IterateVisitsPages(n - 1, listing, step, run, o);
      assert PageAgrees(listing, n - 1, step, o);
      assert Advances(Iterate(n - 1, run), n - 1, listing, step, run, o);
    }
  }

  lemma AlwaysAdvances(r: History, k: nat, listing: seq<Uri>, batch: nat, o: Orders)
    requires Sorted(listing, o) && Asymmetric(o) && batch >= 1
    ensures Advances(r, k, listing, PageLimit(batch), Runner(listing, batch, o), o)
  {
    if PageAgrees(listing, k, PageLimit(batch), o) && Swept(r, Start(k, PageLimit(batch)), listing) {
      SweptNext(r, Start(k, PageLimit(batch)), listing, batch, o);
    }
  }

  /** While the orders agree, each run visits the next page. */
  lemma RunsVisitPages(n: nat, listing: seq<Uri>, batch: nat, o: Orders)
    requires Sorted(listing, o) && Asymmetric(o) && batch >= 1
    requires forall k :: 0 <= k < n ==> PageAgrees(listing, k, PageLimit(batch), o)
    ensures Swept(Runs(n, listing, batch, o), Least(Start(n, PageLimit(batch)), |listing|), listing)
  {
    var step, run := PageLimit(batch), Runner(listing, batch, o);
    forall r, k ensures Advances(r, k, listing, step, run, o) { AlwaysAdvances(r, k, listing, batch, o); }
    IterateVisitsPages(n, listing, step, run, o);
  }

  /** Enough runs for `n` entries. */
  function Pages(n: nat, step: nat): nat
    requires step > 0
  {
    (n + step - 1) / step
  }

  lemma PagesAreEnough(n: nat, step: nat, k: nat)
    requires step > 0
    ensures k < Pages(n, step) <==> Start(k, step) < n
  {
    var q := Pages(n, step);
    StartIs(k, step);
    StartIs(q, step);
    if k < q { StartsGrow(k + 1, q, step); } else { StartsGrow(q, k, step); }
  }

  /**
    With the orders agreeing at every boundary, ceil(N / batch) runs visit every entry once
    and in order, and one more run comes back empty and clears the progress.
  */
  lemma SweepIsExact(listing: seq<Uri>, batch: nat, o: Orders)
    requires Sorted(listing, o) && Asymmetric(o) && batch >= 1 && listing != []
             && BoundariesAgree(listing, PageLimit(batch), o)
    ensures var n := Pages(|listing|, PageLimit(batch));
            && Flatten(Runs(n, listing, batch, o).1) == listing
            && (forall k :: 0 <= k < n ==> Runs(n, listing, batch, o).1[k] != [])
            && Runs(n + 1, listing, batch, o).1[n] == [] && Runs(n + 1, listing, batch, o).0 == Default()
  {
    var n := Pages(|listing|, PageLimit(batch));
    AllSwept(listing, batch, n, o);
    assert listing[..|listing|] == listing;
    LastRunIsEmpty(Runs(n, listing, batch, o).0, listing, batch, o);
  }

  lemma AllSwept(listing: seq<Uri>, batch: nat, n: nat, o: Orders)
    requires Sorted(listing, o) && Asymmetric(o) && batch >= 1 && BoundariesAgree(listing, PageLimit(batch), o)
    requires n == Pages(|listing|, PageLimit(batch))
    ensures Swept(Runs(n, listing, batch, o), |listing|, listing)
  {
    var step := PageLimit(batch);
    forall k | 0 <= k < n ensures PageAgrees(listing, k, step, o) {
      PagesAreEnough(|listing|, step, k);
    }
    PagesAreEnough(|listing|, step, n);
    RunsVisitPages(n, listing, batch, o);
  }

  lemma LastRunIsEmpty(d: Progress, listing: seq<Uri>, batch: nat, o: Orders)
    requires Sorted(listing, o) && Asymmetric(o) && batch >= 1 && listing != [] && Stands(d, |listing|, listing)
    ensures Next(d, listing, batch, Fine, o) == (Default(), [])
  {
    assert listing[|listing|..] == [];
    RunVisitsPage(d, |listing|, listing, batch, o);
  }

  // ------------------------------------------------------------------ where the orders disagree

  /** `u` is behind the cursor in the parsed order. */
  ghost predicate Passed(u: Uri, d: Progress, o: Orders) { d.cursor.Some? && !o.parsed(d.cursor.value, u) }

  /** What is behind the cursor is not visited, and stays behind until the progress is cleared. */
  lemma PassedIsSkipped(u: Uri, d: Progress, listing: seq<Uri>, batch: nat, o: Orders)
    requires Passed(u, d, o) && Transitive(o)
    ensures var (e, entries) := Next(d, listing, batch, Fine, o); u !in entries && (entries != [] ==> Passed(u, e, o))
  {
    var (e, entries) := Next(d, listing, batch, Fine, o);
    EntriesAreLater(listing, d.cursor, d.watermark, batch, o);
    if entries != [] {
      assert entries[|entries| - 1] in entries;
      assert o.parsed(d.cursor.value, entries[|entries| - 1]);
    }
  }

  /** None of the first `n` runs came back empty. */
  ghost predicate NoneEmpty(n: nat, listing: seq<Uri>, batch: nat, o: Orders)
  {
    forall k :: 0 <= k < n ==> Runs(n, listing, batch, o).1[k] != []
  }

  lemma {:induction false} IterateEarlier(m: nat, n: nat, run: Progress -> (Progress, seq<Uri>))
    requires m <= n
    ensures Iterate(m, run).1 == Iterate(n, run).1[..m]
    decreases n
  {
    if m < n {
      IterateEarlier(m, n - 1, run);
      assert Iterate(n, run).1[..n - 1] == Iterate(n - 1, run).1;
    }
  }

  /** `u` is behind the cursor, and none of the runs from the `m`-th on has visited it. */
  ghost predicate Skipping(u: Uri, r: History, m: nat, o: Orders)
  {
    Passed(u, r.0, o) && forall k :: m <= k < |r.1| ==> u !in r.1[k]
  }

  /** A run with `u` behind the cursor leaves it there, unvisited, unless it clears the progress. */
  ghost predicate Skips(u: Uri, d: Progress, run: Progress -> (Progress, seq<Uri>), o: Orders)
  {
    Passed(u, d, o) ==> u !in run(d).1 && (run(d).1 != [] ==> Passed(u, run(d).0, o))
  }

  lemma {:induction false} IterateSkips(u: Uri, m: nat, n: nat, run: Progress -> (Progress, seq<Uri>), o: Orders)
    requires m <= n && forall d :: Skips(u, d, run, o)
    requires forall k :: 0 <= k < n ==> Iterate(n, run).1[k] != []
    requires Passed(u, Iterate(m, run).0, o)
    ensures Skipping(u, Iterate(n, run), m, o)
    decreases n
  {
    if m < n {
      IterateEarlier(n - 1, n, run);
      IterateSkips(u, m, n - 1, run, o);
      assert Skips(u, Iterate(n - 1, run).0, run, o);
      assert Iterate(n, run).1[n - 1] == run(Iterate(n - 1, run).0).1;
    }
  }

  lemma StaysSkipped(u: Uri, m: nat, n: nat, listing: seq<Uri>, batch: nat, o: Orders)
    requires m <= n && Transitive(o) && NoneEmpty(n, listing, batch, o)
    requires Passed(u, Runs(m, listing, batch, o).0, o)
    ensures Skipping(u, Runs(n, listing, batch, o), m, o)
  {
    var run := Runner(listing, batch, o);
    forall d ensures Skips(u, d, run, o) {
      if Passed(u, d, o) { PassedIsSkipped(u, d, listing, batch, o); }
    }
    forall k | 0 <= k < n ensures Iterate(n, run).1[k] != [] { assert Runs(n, listing, batch, o).1[k] != []; }
    IterateSkips(u, m, n, run, o);
  }

  /** A sweep covers the set if every entry is visited before a run comes back empty. */
  ghost predicate Covered(listing: seq<Uri>, batch: nat, o: Orders)
  {
    exists n :: NoneEmpty(n, listing, batch, o) && forall u :: u in listing ==> VisitedBy(u, n, listing, batch, o)
  }

  ghost predicate VisitedBy(u: Uri, n: nat, listing: seq<Uri>, batch: nat, o: Orders)
  {
    exists k :: 0 <= k < n && u in Runs(n, listing, batch, o).1[k]
  }

  lemma {:induction false} FlattenHas(visits: seq<seq<Uri>>)
    ensures forall u :: u in Flatten(visits) <==> exists k :: 0 <= k < |visits| && u in visits[k]
    decreases |visits|
  {
    if visits != [] {
      var n := |visits| - 1;
      FlattenHas(visits[..n]);
      forall u ensures u in Flatten(visits) <==> exists k :: 0 <= k < |visits| && u in visits[k] {
        if u in Flatten(visits[..n]) { var k :| 0 <= k < n && u in visits[..n][k]; assert u in visits[k]; }
        if k :| 0 <= k < |visits| && u in visits[k] { assert k < n ==> u in visits[..n][k]; }
      }
    }
  }

  /** The first boundary where they disagree. */
  lemma {:induction false} FirstDisagreement(listing: seq<Uri>, step: nat, k: nat, o: Orders) returns (first: nat)
    requires Start(k, step) < |listing| && !PageAgrees(listing, k, step, o)
    ensures Start(first, step) < |listing| && !PageAgrees(listing, first, step, o)
    ensures forall j :: 0 <= j < first ==> PageAgrees(listing, j, step, o)
    decreases k
  {
    first := k;
    if j :| 0 <= j < k && !PageAgrees(listing, j, step, o) {
      StartsGrow(j, k, step);
      first := FirstDisagreement(listing, step, j, o);
    }
  }

  lemma {:induction false} StartsGrow(j: nat, k: nat, step: nat)
    requires j <= k
    ensures Start(j, step) <= Start(k, step)
    decreases k
  {
    if j < k { StartsGrow(j, k - 1, step); }
  }

  /** At a boundary where the orders disagree an entry is skipped, and no later run of the sweep comes back to it. */
  lemma DisagreementSkips(listing: seq<Uri>, batch: nat, n: nat, k: nat, u: Uri, o: Orders)
    requires Sorted(listing, o) && Strict(o) && batch >= 1
    requires forall j :: 0 <= j < k ==> PageAgrees(listing, j, PageLimit(batch), o)
    requires PutBefore(listing, k, u, PageLimit(batch), o)
    requires NoneEmpty(n, listing, batch, o)
    ensures !VisitedBy(u, n, listing, batch, o)
  {
    var p := Start(k, PageLimit(batch));
    RunsVisitPages(k, listing, batch, o);
    NotBefore(listing, p, u, o);
    FlattenHas(Runs(k, listing, batch, o).1);
    if k <= n {
      IterateEarlier(k, n, Runner(listing, batch, o));
      StaysSkipped(u, k, n, listing, batch, o);
    } else {
      IterateEarlier(n, k, Runner(listing, batch, o));
    }
    forall j | 0 <= j < n ensures u !in Runs(n, listing, batch, o).1[j] {
      if j < k { assert Runs(n, listing, batch, o).1[j] == Runs(k, listing, batch, o).1[j]; }
    }
  }

  lemma NotBefore(listing: seq<Uri>, p: nat, u: Uri, o: Orders)
    requires Sorted(listing, o) && Asymmetric(o) && p <= |listing| && u in listing[p..]
    ensures u !in listing[..p]
  {
  }

  lemma AgreementCovers(listing: seq<Uri>, batch: nat, o: Orders)
    requires Sorted(listing, o) && Asymmetric(o) && batch >= 1 && BoundariesAgree(listing, PageLimit(batch), o)
    ensures Covered(listing, batch, o)
  {
    if listing == [] {
      assert NoneEmpty(0, listing, batch, o);
    } else {
      SweepIsExact(listing, batch, o);
      var n := Pages(|listing|, PageLimit(batch));
      FlattenHas(Runs(n, listing, batch, o).1);
      assert NoneEmpty(n, listing, batch, o);
      forall u | u in listing ensures VisitedBy(u, n, listing, batch, o) {
        assert u in Flatten(Runs(n, listing, batch, o).1);
      }
    }
  }

  /** Where the orders disagree some entry is never visited within a sweep. */
  lemma DisagreementMisses(listing: seq<Uri>, batch: nat, o: Orders) returns (u: Uri)
    requires Sorted(listing, o) && Strict(o) && batch >= 1 && !BoundariesAgree(listing, PageLimit(batch), o)
    ensures u in listing && forall n: nat :: NoneEmpty(n, listing, batch, o) ==> !VisitedBy(u, n, listing, batch, o)
  {
    var k: nat :| Start(k, PageLimit(batch)) < |listing| && !PageAgrees(listing, k, PageLimit(batch), o);
    var first := FirstDisagreement(listing, PageLimit(batch), k, o);
    u := EntryPutBefore(listing, first, PageLimit(batch), o);
    SkippedForever(listing, batch, first, u, o);
  }

  /** At a boundary where the orders disagree, an entry of the page is before the cursor in the parsed order. */
  ghost predicate PutBefore(listing: seq<Uri>, k: nat, u: Uri, step: nat, o: Orders)
  {
    && k > 0 && 0 < Start(k, step) < |listing|
    && u in Take(listing[Start(k, step)..], step) && !o.parsed(listing[Start(k, step) - 1], u)
  }

  lemma EntryPutBefore(listing: seq<Uri>, k: nat, step: nat, o: Orders) returns (u: Uri)
    requires Start(k, step) < |listing| && !PageAgrees(listing, k, step, o)
    ensures PutBefore(listing, k, u, step, o) && u in listing
  {
    var p := Start(k, step);
    u :| u in Take(listing[p..], step) && !o.parsed(listing[p - 1], u);
  }

  lemma SkippedForever(listing: seq<Uri>, batch: nat, k: nat, u: Uri, o: Orders)
    requires Sorted(listing, o) && Strict(o) && batch >= 1
    requires forall j :: 0 <= j < k ==> PageAgrees(listing, j, PageLimit(batch), o)
    requires PutBefore(listing, k, u, PageLimit(batch), o)
    ensures forall n: nat :: NoneEmpty(n, listing, batch, o) ==> !VisitedBy(u, n, listing, batch, o)
  {
    forall n: nat | NoneEmpty(n, listing, batch, o) ensures !VisitedBy(u, n, listing, batch, o) {
      DisagreementSkips(listing, batch, n, k, u, o);
    }
  }

  /** A sweep covers a fixed set if and only if the two orders agree across every page boundary. */
  lemma SweepCoversIff(listing: seq<Uri>, batch: nat, o: Orders)
    requires Sorted(listing, o) && Strict(o) && batch >= 1
    ensures Covered(listing, batch, o) <==> BoundariesAgree(listing, PageLimit(batch), o)
  {
    if BoundariesAgree(listing, PageLimit(batch), o) {
      AgreementCovers(listing, batch, o);
    } else {
      var u := DisagreementMisses(listing, batch, o);
    }
  }

  // ------------------------------------------------------------------ failures and restarts

  /**
    Any schedule of runs, failing as they may, from durable progress `d`: the progress left, and the
    visits of those that succeeded.
  */
  function Replay(schedule: seq<Fate>, listing: seq<Uri>, batch: nat, o: Orders): (Progress, seq<seq<Uri>>)
  {
    if schedule == [] then (Default(), [])
    else
      var (d, visits) := Replay(schedule[..|schedule| - 1], listing, batch, o);
      var (e, entries) := Next(d, listing, batch, schedule[|schedule| - 1], o);
      (e, if schedule[|schedule| - 1].Fine? then visits + [entries] else visits)
  }

  function Successes(schedule: seq<Fate>): nat
  {
    if schedule == [] then 0
    else Successes(schedule[..|schedule| - 1]) + if schedule[|schedule| - 1].Fine? then 1 else 0
  }

  /**
    What a run does to the cursor depends on the cursor and the watermark alone, and a failed one does
    nothing to them.
  */
  lemma NextByCursor(d: Progress, e: Progress, listing: seq<Uri>, batch: nat, fate: Fate, o: Orders)
    requires d.cursor == e.cursor && d.watermark == e.watermark
    ensures var (x, y) := (Next(d, listing, batch, fate, o), Next(e, listing, batch, Fine, o));
            if fate.Fine? then x.0.cursor == y.0.cursor && x.0.watermark == y.0.watermark && x.1 == y.1
            else x.0.cursor == d.cursor && x.0.watermark == d.watermark
  {
  }

  /**
    A failed run moves neither the cursor nor the watermark: the successful ones visit what they would
    have visited alone.
  */
  lemma {:induction false} FailuresSkipNothing(schedule: seq<Fate>, listing: seq<Uri>, batch: nat, o: Orders)
    ensures var (d, visits) := Replay(schedule, listing, batch, o);
            var (e, alone) := Runs(Successes(schedule), listing, batch, o);
            visits == alone && d.cursor == e.cursor && d.watermark == e.watermark
    decreases |schedule|
  {
    if schedule != [] {
      var n := |schedule| - 1;
      FailuresSkipNothing(schedule[..n], listing, batch, o);
      NextByCursor(Replay(schedule[..n], listing, batch, o).0, Runs(Successes(schedule[..n]), listing, batch, o).0,
                   listing, batch, schedule[n], o);
    }
  }
}
