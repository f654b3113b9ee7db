/** What each run of a sweep visits and records, with the batch limit itself for the page. */
module SleeptimePages {
  import opened Prelude
  import opened Sleeptime

  /** A run handles as many entries as the batch limit says, and never more than a thousand. */
  function Step(batch: nat): nat { if batch <= 1000 then batch else 1000 }

  /** Page `k` of the listing: the entries from `k` times the step on, as many as that or as are left. */
  function Page(listing: seq<Uri>, k: nat, step: nat): seq<Uri>
  {
    PageFrom(listing, k * step, step)
  }

  function PageFrom(listing: seq<Uri>, from: nat, step: nat): seq<Uri>
  {
    if from >= |listing| then [] else if from + step <= |listing| then listing[from..from + step] else listing[from..]
  }

  /** The parsed order puts every entry of page `k` after the entry that ends page `k - 1`. */
  ghost predicate InOrderAt(listing: seq<Uri>, k: nat, step: nat, o: Orders)
    requires k > 0 && step > 0 && k * step < |listing|
  {
    k * step > 0 && forall u :: u in Page(listing, k, step) ==> o.parsed(listing[k * step - 1], u)
  }

  ghost predicate InOrder(listing: seq<Uri>, step: nat, o: Orders)
    requires step > 0
  {
    forall k: nat :: k > 0 && k * step < |listing| ==> InOrderAt(listing, k, step, o)
  }

  lemma InOrderIsAgreement(listing: seq<Uri>, batch: nat, o: Orders)
    requires batch >= 1
    ensures InOrder(listing, Step(batch), o) <==> BoundariesAgree(listing, PageLimit(batch), o)
  {
    StepIs(batch);
    if InOrder(listing, Step(batch), o) { InOrderAgrees(listing, Step(batch), o); }
    if BoundariesAgree(listing, PageLimit(batch), o) { AgreementOrders(listing, Step(batch), o); }
  }

  lemma InOrderAgrees(listing: seq<Uri>, step: nat, o: Orders)
    requires step > 0 && InOrder(listing, step, o)
    ensures BoundariesAgree(listing, step, o)
  {
    forall k: nat | Start(k, step) < |listing| ensures PageAgrees(listing, k, step, o) {
      PageIs(listing, k, step);
      if k > 0 { assert InOrderAt(listing, k, step, o); }
    }
  }

  lemma AgreementOrders(listing: seq<Uri>, step: nat, o: Orders)
    requires step > 0 && BoundariesAgree(listing, step, o)
    ensures InOrder(listing, step, o)
  {
    forall k: nat | k > 0 && k * step < |listing| ensures InOrderAt(listing, k, step, o) {
      StartIs(k, step);
      PageIs(listing, k, step);
      Positive(k, step);
      assert PageAgrees(listing, k, step, o);
    }
  }

  lemma Positive(k: nat, step: nat)
    requires k > 0 && step > 0
    ensures k * step > 0
  {
  }

  lemma PageIs(listing: seq<Uri>, k: nat, step: nat)
    requires Start(k, step) < |listing|
    ensures Start(k, step) == k * step && Take(listing[k * step..], step) == Page(listing, k, step)
  {
    StartIs(k, step);
  }

  lemma PageVisit(listing: seq<Uri>, batch: nat, k: nat, o: Orders)
    requires Sorted(listing, o) && Asymmetric(o) && batch >= 1 && BoundariesAgree(listing, PageLimit(batch), o)
    requires Start(k, PageLimit(batch)) < |listing|
    ensures Runs(k + 1, listing, batch, o).1[k] == Take(listing[Start(k, PageLimit(batch))..], PageLimit(batch))
  {
    var step := PageLimit(batch);
    forall j | 0 <= j < k ensures PageAgrees(listing, j, step, o) { StartsGrow(j, k, step); }
    RunsVisitPages(k, listing, batch, o);
    assert PageAgrees(listing, k, step, o);
    RunVisitsPage(Runs(k, listing, batch, o).0, Start(k, step), listing, batch, o);
  }

  /** How many pages there are: ceil(n / step). */
  function PagesOf(n: nat, step: nat): nat
    requires step > 0
  {
    (n + step - 1) / step
  }

  /** Page `k` is one of them exactly if something is left for it. */
  lemma PagesOfIs(n: nat, step: nat, k: nat)
    requires step > 0
    ensures k < PagesOf(n, step) <==> k * step < n
  {
    PagesAreEnough(n, step, k);
    StartIs(k, step);
  }

  /**
    With the orders agreeing at every boundary, the runs visit page after page of as many entries as
    the batch limit says, the last one what is left; one more run visits nothing and clears the progress.
  */
  lemma SweepByPages(listing: seq<Uri>, batch: nat, k: nat, o: Orders)
    requires Sorted(listing, o) && Asymmetric(o) && batch >= 1 && listing != [] && InOrder(listing, Step(batch), o)
    ensures var n := PagesOf(|listing|, Step(batch));
            && (k < n ==> Runs(n, listing, batch, o).1[k] == Page(listing, k, Step(batch)) != [])
            && Runs(n + 1, listing, batch, o).1[n] == [] && Runs(n + 1, listing, batch, o).0 == Default()
  {
    StepIs(batch);
    InOrderIsAgreement(listing, batch, o);
    SweepIsExact(listing, batch, o);
    if k < PagesOf(|listing|, Step(batch)) {
      PagesOfIs(|listing|, Step(batch), k);
      EarlierPage(listing, batch, k, PagesOf(|listing|, Step(batch)), o);
    }
  }

  lemma StepIs(batch: nat)
    requires batch >= 1
    ensures Step(batch) == PageLimit(batch)
  {
  }

  lemma EarlierPage(listing: seq<Uri>, batch: nat, k: nat, n: nat, o: Orders)
    requires Sorted(listing, o) && Asymmetric(o) && batch >= 1 && BoundariesAgree(listing, PageLimit(batch), o)
    requires k < n && k * PageLimit(batch) < |listing|
    ensures Runs(n, listing, batch, o).1[k] == Page(listing, k, PageLimit(batch)) != []
  {
    StartIs(k, PageLimit(batch));
    PageIs(listing, k, PageLimit(batch));
    PageVisit(listing, batch, k, o);
    IterateEarlier(k + 1, n, Runner(listing, batch, o));
    assert Runs(n, listing, batch, o).1[..k + 1][k] == Runs(n, listing, batch, o).1[k];
  }

  /** A sweep covers the set exactly if the parsed order puts every page after the end of the one before it. */
  lemma SweepCoversIffPages(listing: seq<Uri>, batch: nat, o: Orders)
    requires Sorted(listing, o) && Strict(o) && batch >= 1
    ensures Covered(listing, batch, o) <==> InOrder(listing, Step(batch), o)
  {
    InOrderIsAgreement(listing, batch, o);
    SweepCoversIff(listing, batch, o);
  }

  /**
    Until a run comes back empty, the attempts recorded are the runs made, and the cursor is the last
    entry visited.
  */
  lemma {:induction false} AttemptsAreRuns(n: nat, listing: seq<Uri>, batch: nat, o: Orders)
    requires NoneEmpty(n, listing, batch, o) && n <= 4294967295
    ensures Recorded(Runs(n, listing, batch, o))
  {
    if n > 0 {
      assert Runs(n, listing, batch, o).1[n - 1] != [];
      EarlierNoneEmpty(n, listing, batch, o);
      AttemptsAreRuns(n - 1, listing, batch, o);
      RecordedNext(Runs(n - 1, listing, batch, o), listing, batch, o);
    }
  }

  /** As many attempts as runs, none of them failed, and the cursor is the last entry visited. */
  ghost predicate Recorded(r: History)
  {
    var (d, visits) := r;
    && d.attempt == |visits| && !d.failed && d.watermark == None
    && (visits != [] ==> var last := visits[|visits| - 1]; last != [] && d.cursor == Some(last[|last| - 1]))
  }

  lemma EarlierNoneEmpty(n: nat, listing: seq<Uri>, batch: nat, o: Orders)
    requires n > 0 && NoneEmpty(n, listing, batch, o)
    ensures NoneEmpty(n - 1, listing, batch, o)
  {
    IterateEarlier(n - 1, n, Runner(listing, batch, o));
    assert Runs(n - 1, listing, batch, o).1 == Runs(n, listing, batch, o).1[..n - 1];
  }

  lemma RecordedNext(r: History, listing: seq<Uri>, batch: nat, o: Orders)
    requires Recorded(r) && |r.1| < 4294967295 && Next(r.0, listing, batch, Fine, o).1 != []
    ensures Recorded(OneMore(r, Runner(listing, batch, o)))
  {
    OneAttempt(r.0, listing, batch, o);
  }

  lemma OneAttempt(d: Progress, listing: seq<Uri>, batch: nat, o: Orders)
    requires d.attempt < 4294967295 && d.watermark == None && Next(d, listing, batch, Fine, o).1 != []
    ensures var (e, entries) := Next(d, listing, batch, Fine, o);
            e == Progress(Some(entries[|entries| - 1]), None, d.attempt + 1, false)
  {
  }

  /** A failed run leaves the record alone, but for a failed scan that could still record itself. */
  lemma FailureIsNoted(d: Progress, listing: seq<Uri>, batch: nat, fate: Fate, o: Orders)
    requires fate != Fine
    ensures var (e, entries) := Next(d, listing, batch, fate, o);
            && entries == [] && e.cursor == d.cursor && e.watermark == d.watermark
            && (fate == ScanFails(true) ==>
              e.failed && (e.attempt == d.attempt + 1 || e.attempt == d.attempt >= 4294967295
                                                          || e.attempt == 4294967295 < d.attempt))
            && (fate != ScanFails(true) ==> e == d)
  {
  }

  /**
    A run visits what the store lists after the cursor's string, as far as it is after the cursor and
    not after the watermark.
  */
  lemma VisitedIff(d: Progress, listing: seq<Uri>, batch: nat, u: Uri, o: Orders)
    requires batch >= 1
    ensures u in Next(d, listing, batch, Fine, o).1 <==>
            && u in Scan(listing, d.cursor, PageLimit(batch), o)
            && (d.cursor.Some? ==> o.parsed(d.cursor.value, u))
            && (d.watermark.Some? ==> !o.parsed(d.watermark.value, u))
  {
    var page := Scan(listing, d.cursor, PageLimit(batch), o);
    WhereIs(page, CursorFilter(d.cursor), o);
    WhereIs(Where(page, CursorFilter(d.cursor), o), WatermarkFilter(d.watermark), o);
  }

  /** The store lists what is after the cursor's string, and no more than the batch limit says. */
  lemma ScannedIs(listing: seq<Uri>, cursor: Option<Uri>, batch: nat, u: Uri, o: Orders)
    requires batch >= 1
    ensures var page := Scan(listing, cursor, PageLimit(batch), o);
            && |page| <= Step(batch)
            && (u in page ==> u in listing && (cursor.Some? ==> o.text(cursor.value, u)))
            && (|page| < Step(batch) && u in listing && (cursor.Some? ==> o.text(cursor.value, u)) ==> u in page)
  {
    WhereIs(listing, if cursor.None? then Always else TextAfter(cursor.value), o);
  }
}
