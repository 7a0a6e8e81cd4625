/** The counts that a SC-04 run reports, and the law they obey. */
module Sc04Counts {
  import opened Options
  import opened Sc04Ingestion
  import R = Runs

  datatype Counts = Counts(received: nat, routed: nat, awaitingReview: nat, inProgress: nat, duplicates: nat,
                           failed: nat, duplicateFailed: nat)

  // ----- Counting -----

  predicate IsNewIn(items: seq<RunItem>, run: nat, hash: string) {
    exists item <- items :: item.run == run && item.outcome == New && item.intake.hash == hash
  }

  predicate IsDuplicateIn(items: seq<RunItem>, run: nat, hash: string) {
    exists item <- items :: item.run == run && item.outcome == DuplicateHash && item.intake.hash == hash
  }

  function ItemsOf(items: seq<RunItem>, run: nat, isNew: bool): nat {
    if items == [] then 0
    else
      var last := items[|items| - 1];
      ItemsOf(items[..|items| - 1], run, isNew) + (if last.run == run && (last.outcome == New) == isNew then 1 else 0)
  }

  /** The documents, counted once each, that are new in the run and have one of the statuses. */
  function NewWith(documents: seq<Document>, items: seq<RunItem>, run: nat, statuses: set<DocumentStatus>): nat {
    if documents == [] then 0
    else
      var last := documents[|documents| - 1];
      NewWith(documents[..|documents| - 1], items, run, statuses) +
          (if IsNewIn(items, run, last.hash) && last.status in statuses then 1 else 0)
  }

  function DuplicateFailed(documents: seq<Document>, items: seq<RunItem>, run: nat): nat {
    if documents == [] then 0
    else
      var last := documents[|documents| - 1];
      DuplicateFailed(documents[..|documents| - 1], items, run) +
          (if IsDuplicateIn(items, run, last.hash) && last.status == Failed then 1 else 0)
  }

  /** `ingestionFailures` are the attachments that could not be ingested at all. */
  function Recount(store: Store, run: nat, ingestionFailures: nat): Counts {
    var duplicateFailed := DuplicateFailed(store.documents, store.items, run);
    Counts(
      ItemsOf(store.items, run, true) + ItemsOf(store.items, run, false) + ingestionFailures,
      NewWith(store.documents, store.items, run, {Routed}),
      NewWith(store.documents, store.items, run, {AwaitingReview}),
      NewWith(store.documents, store.items, run, {DocumentStatus.Queued, Processing}),
      ItemsOf(store.items, run, false),
      NewWith(store.documents, store.items, run, {Failed}) + ingestionFailures + duplicateFailed,
      duplicateFailed)
  }

  // ----- Conservation -----

  const ALL: set<DocumentStatus> := {DocumentStatus.Queued, Processing, AwaitingReview, Routed, Failed}

  lemma {:induction false} StatusesSplit(documents: seq<Document>, items: seq<RunItem>, run: nat)
    ensures NewWith(documents, items, run, ALL) ==
            NewWith(documents, items, run, {Routed}) + NewWith(documents, items, run, {AwaitingReview})
            + NewWith(documents, items, run, {DocumentStatus.Queued, Processing}) +
                NewWith(documents, items, run, {Failed})
    decreases |documents|
  {
    if documents != [] {
      StatusesSplit(documents[..|documents| - 1], items, run);
    }
  }

  function NewHashes(items: seq<RunItem>, run: nat): set<string> {
    set item <- items | item.run == run && item.outcome == New :: item.intake.hash
  }

  function DocumentHashes(documents: seq<Document>): set<string> {
    set d <- documents :: d.hash
  }

  lemma NewHashesSnoc(init: seq<RunItem>, last: RunItem, run: nat)
    ensures NewHashes(init + [last], run) ==
            NewHashes(init, run) + (if last.run == run && last.outcome == New then {last.intake.hash} else {})
  {
    assert forall item :: item in init + [last] <==> item in init || item == last;
  }

  lemma NewHashIsFresh(init: seq<RunItem>, last: RunItem, run: nat)
    requires NewOnce(init + [last]) && last.outcome == New
    ensures last.intake.hash !in NewHashes(init, run)
  {
    forall item | item in init && item.outcome == New
      ensures item.intake.hash != last.intake.hash
    {
      var i :| 0 <= i < |init| && init[i] == item;
      assert (init + [last])[i] == item && (init + [last])[|init|] == last;
    }
  }

  /** One new item for each new hash. */
  lemma {:induction false} NewItemsAreHashes(items: seq<RunItem>, run: nat)
    requires NewOnce(items)
    ensures ItemsOf(items, run, true) == |NewHashes(items, run)|
    decreases |items|
  {
    if items != [] {
      var init, last := items[..|items| - 1], items[|items| - 1];
      NewItemsAreHashes(init, run);
      assert items == init + [last];
      NewHashesSnoc(init, last, run);
      if last.run == run && last.outcome == New {
        NewHashIsFresh(init, last, run);
      }
    }
  }

  lemma HashesSnoc(init: seq<Document>, last: Document)
    requires OnePerHash(init + [last])
    ensures DocumentHashes(init + [last]) == DocumentHashes(init) + {last.hash} &&
            last.hash !in DocumentHashes(init) && OnePerHash(init)
  {
    var documents := init + [last];
    forall d | d in init
      ensures d.hash != last.hash
    {
      var i :| 0 <= i < |init| && init[i] == d;
      assert documents[i] == d && documents[|init|] == last;
    }
    forall i, j | 0 <= i < j < |init|
      ensures init[i].hash != init[j].hash
    {
      assert documents[i] == init[i] && documents[j] == init[j];
    }
  }

  lemma AddedToBoth(a: set<string>, news: set<string>, x: string)
    requires x !in a
    ensures |(a + {x}) * news| == |a * news| + (if x in news then 1 else 0)
  {
    if x in news {
      assert (a + {x}) * news == a * news + {x};
    } else {
      assert (a + {x}) * news == a * news;
    }
  }

  lemma EveryStatus(status: DocumentStatus)
    ensures status in ALL
  {
  }

  lemma NewWithSnoc(init: seq<Document>, last: Document, items: seq<RunItem>, run: nat)
    ensures NewWith(init + [last], items, run, ALL) ==
            NewWith(init, items, run, ALL) + (if IsNewIn(items, run, last.hash) then 1 else 0)
  {
    EveryStatus(last.status);
    assert (init + [last])[..|init|] == init;
  }

  /** The hashes of the documents that are new in the run. */
  predicate AreNew(documents: seq<Document>, items: seq<RunItem>, run: nat, news: set<string>) {
    forall i :: 0 <= i < |documents| ==> (IsNewIn(items, run, documents[i].hash) <==> documents[i].hash in news)
  }

  /** One document for each hash on record. */
  lemma {:induction false} NewDocumentsAreHashes(documents: seq<Document>, items: seq<RunItem>, run: nat,
                                                 news: set<string>)
    requires OnePerHash(documents) && AreNew(documents, items, run, news)
    ensures NewWith(documents, items, run, ALL) == |DocumentHashes(documents) * news|
    decreases |documents|
  {
    if documents == [] {
      assert DocumentHashes(documents) * news == {};
    } else {
      var init, last := documents[..|documents| - 1], documents[|documents| - 1];
      assert documents == init + [last];
      HashesSnoc(init, last);
      assert AreNew(init, items, run, news);
      NewDocumentsAreHashes(init, items, run, news);
      NewWithSnoc(init, last, items, run);
      AddedToBoth(DocumentHashes(init), news, last.hash);
    }
  }

  lemma NewHashesAreKnown(store: Store, run: nat)
    requires StoreOk(store)
    ensures NewHashes(store.items, run) <= DocumentHashes(store.documents)
  {
    forall item | item in store.items
      ensures item.intake.hash in DocumentHashes(store.documents)
    {
      assert HasDocument(store.documents, item.intake.hash);
    }
  }

  lemma NewItemsAreDocuments(store: Store, run: nat)
    requires StoreOk(store)
    ensures ItemsOf(store.items, run, true) == NewWith(store.documents, store.items, run, ALL)
  {
    NewItemsAreHashes(store.items, run);
    NewDocumentsAreHashes(store.documents, store.items, run, NewHashes(store.items, run));
    NewHashesAreKnown(store, run);
    assert DocumentHashes(store.documents) * NewHashes(store.items, run) == NewHashes(store.items, run);
  }

  /** Conservation, in every state that ingestions and processing can reach: what a run received is routed, awaiting
      review, in progress, a duplicate, or failed other than as a duplicate. */
  lemma EveryItemIsAccounted(steps: seq<Step>, run: nat, ingestionFailures: nat)
    ensures var c := Recount(Execution(EMPTY, steps).store, run, ingestionFailures);
            c.received == c.routed + c.awaitingReview + c.inProgress + c.duplicates + (c.failed - c.duplicateFailed)
  {
    NothingIsDuplicated(steps);
    var store := Execution(EMPTY, steps).store;
    NewItemsAreDocuments(store, run);
    StatusesSplit(store.documents, store.items, run);
  }

  // ----- The run's status -----

  function Verdict(c: Counts, newCount: nat, ingestionFailures: nat): R.RunStatus {
    if c.awaitingReview > 0 then R.AwaitingReview
    else if c.inProgress > 0 then R.Running
    else if c.failed > 0 && c.routed == 0 && c.failed >= newCount + ingestionFailures then R.Failed
    else if c.failed > 0 then R.SucceededWithWarnings
    else R.Succeeded
  }

  lemma VerdictMeansIn(store: Store, run: nat, ingestionFailures: nat)
    requires StoreOk(store)
    ensures var c := Recount(store, run, ingestionFailures);
            var verdict := Verdict(c, ItemsOf(store.items, run, true), ingestionFailures);
            && (verdict == R.Succeeded <==> c.received == c.routed + c.duplicates && c.duplicateFailed == 0)
            && (verdict == R.Failed <==> c.awaitingReview == 0 && c.inProgress == 0 && c.routed == 0 && c.failed > 0)
  {
    NewItemsAreDocuments(store, run);
    StatusesSplit(store.documents, store.items, run);
  }

  /** A run is reported as succeeded exactly when all it received was routed or a duplicate and no duplicate's
      document has failed; and it fails exactly when it is over, routed nothing, and something has failed. */
  lemma VerdictMeans(steps: seq<Step>, run: nat, ingestionFailures: nat)
    ensures var store := Execution(EMPTY, steps).store;
            var c := Recount(store, run, ingestionFailures);
            var verdict := Verdict(c, ItemsOf(store.items, run, true), ingestionFailures);
            && (verdict == R.Succeeded <==> c.received == c.routed + c.duplicates && c.duplicateFailed == 0)
            && (verdict == R.Failed <==> c.awaitingReview == 0 && c.inProgress == 0 && c.routed == 0 && c.failed > 0)
  {
    NothingIsDuplicated(steps);
    VerdictMeansIn(Execution(EMPTY, steps).store, run, ingestionFailures);
  }

  // ----- The documents and the items of a run -----

  /** The run brought this document in, as new. */
  predicate Brought(items: seq<RunItem>, run: nat, hash: string) {
    exists item <- items :: item.run == run && item.outcome == New && item.intake.hash == hash
  }

  /** The run met this content again, from another origin. */
  predicate MetAgain(items: seq<RunItem>, run: nat, hash: string) {
    exists item <- items :: item.run == run && item.outcome == DuplicateHash && item.intake.hash == hash
  }

  /** The contents of the documents that are new in the run and in one of these statuses. */
  function BroughtWith(documents: seq<Document>, items: seq<RunItem>, run: nat,
                       statuses: set<DocumentStatus>): set<string> {
    set d <- documents | d.status in statuses && Brought(items, run, d.hash) :: d.hash
  }

  function MetFailed(documents: seq<Document>, items: seq<RunItem>, run: nat): set<string> {
    set d <- documents | d.status == DocumentStatus.Failed && MetAgain(items, run, d.hash) :: d.hash
  }

  /** The positions of the run's items, those that are new or those that are not. */
  function ItemsWith(items: seq<RunItem>, run: nat, isNew: bool): set<nat> {
    set i: nat | i < |items| && items[i].run == run && (items[i].outcome == New) == isNew
  }

  // ----- The counts are their sizes -----

  lemma BroughtWithSnoc(init: seq<Document>, last: Document, items: seq<RunItem>, run: nat,
                        statuses: set<DocumentStatus>)
    requires OnePerHash(init + [last])
    ensures last.hash !in BroughtWith(init, items, run, statuses) && last.hash !in MetFailed(init, items, run)
    ensures BroughtWith(init + [last], items, run, statuses) == BroughtWith(init, items, run, statuses) +
            (if last.status in statuses && Brought(items, run, last.hash) then {last.hash} else {})
    ensures MetFailed(init + [last], items, run) == MetFailed(init, items, run) +
            (if last.status == DocumentStatus.Failed && MetAgain(items, run, last.hash) then {last.hash} else {})
  {
    HashesSnoc(init, last);
    assert last.hash !in DocumentHashes(init);
    assert forall d :: d in init + [last] <==> d in init || d == last;
  }

  lemma CountsSnoc(init: seq<Document>, last: Document, items: seq<RunItem>, run: nat, statuses: set<DocumentStatus>)
    ensures NewWith(init + [last], items, run, statuses) == NewWith(init, items, run, statuses) +
            (if Brought(items, run, last.hash) && last.status in statuses then 1 else 0)
    ensures DuplicateFailed(init + [last], items, run) == DuplicateFailed(init, items, run) +
            (if MetAgain(items, run, last.hash) && last.status == DocumentStatus.Failed then 1 else 0)
  {
    assert (init + [last])[..|init|] == init;
    assert Brought(items, run, last.hash) <==> IsNewIn(items, run, last.hash);
    assert MetAgain(items, run, last.hash) <==> IsDuplicateIn(items, run, last.hash);
  }

  lemma SizeOfAdded(a: set<string>, x: string, added: bool)
    requires x !in a
    ensures |a + (if added then {x} else {})| == |a| + (if added then 1 else 0)
  {
  }

  lemma {:induction false} DocumentsCounted(documents: seq<Document>, items: seq<RunItem>, run: nat,
                                            statuses: set<DocumentStatus>)
    requires OnePerHash(documents)
    ensures NewWith(documents, items, run, statuses) == |BroughtWith(documents, items, run, statuses)|
    ensures DuplicateFailed(documents, items, run) == |MetFailed(documents, items, run)|
    decreases |documents|
  {
    if documents != [] {
      var init, last := documents[..|documents| - 1], documents[|documents| - 1];
      assert documents == init + [last];
      HashesSnoc(init, last);
      DocumentsCounted(init, items, run, statuses);
      BroughtWithSnoc(init, last, items, run, statuses);
      CountsSnoc(init, last, items, run, statuses);
      SizeOfAdded(BroughtWith(init, items, run, statuses), last.hash,
                  last.status in statuses && Brought(items, run, last.hash));
      SizeOfAdded(MetFailed(init, items, run), last.hash,
                  last.status == DocumentStatus.Failed && MetAgain(items, run, last.hash));
    }
  }

  lemma ItemsWithLast(items: seq<RunItem>, n: nat, run: nat, isNew: bool)
    requires |items| == n + 1
    ensures var before := ItemsWith(items[..n], run, isNew);
            && n !in before
            && ItemsWith(items, run, isNew) ==
                 before + (if items[n].run == run && (items[n].outcome == New) == isNew then {n} else {})
  {
    forall i | 0 <= i < n
      ensures i in ItemsWith(items, run, isNew) <==> i in ItemsWith(items[..n], run, isNew)
    {
      assert items[..n][i] == items[i];
    }
  }

  lemma {:induction false} ItemsCounted(items: seq<RunItem>, run: nat, isNew: bool)
    ensures ItemsOf(items, run, isNew) == |ItemsWith(items, run, isNew)|
    decreases |items|
  {
    if items != [] {
      var n := |items| - 1;
      ItemsCounted(items[..n], run, isNew);
      ItemsWithLast(items, n, run, isNew);
    }
  }

  /** Each count of a run is the number of distinct documents, or of items, that it is named after. */
  ghost predicate CountsMean(store: Store, run: nat, ingestionFailures: nat, c: Counts) {
    && c.received == |ItemsWith(store.items, run, true)| + |ItemsWith(store.items, run, false)| + ingestionFailures
    && c.routed == |BroughtWith(store.documents, store.items, run, {Routed})|
    && c.awaitingReview == |BroughtWith(store.documents, store.items, run, {AwaitingReview})|
    && c.inProgress == |BroughtWith(store.documents, store.items, run, {DocumentStatus.Queued, Processing})|
    && c.duplicates == |ItemsWith(store.items, run, false)|
    && c.duplicateFailed == |MetFailed(store.documents, store.items, run)|
    && c.failed == |BroughtWith(store.documents, store.items, run, {DocumentStatus.Failed})| + ingestionFailures +
                   |MetFailed(store.documents, store.items, run)|
  }

  lemma RecountMeans(store: Store, run: nat, ingestionFailures: nat)
    requires OnePerHash(store.documents)
    ensures CountsMean(store, run, ingestionFailures, Recount(store, run, ingestionFailures))
  {
    DocumentsCounted(store.documents, store.items, run, {Routed});
    DocumentsCounted(store.documents, store.items, run, {AwaitingReview});
    DocumentsCounted(store.documents, store.items, run, {DocumentStatus.Queued, Processing});
    DocumentsCounted(store.documents, store.items, run, {DocumentStatus.Failed});
    ItemsCounted(store.items, run, true);
    ItemsCounted(store.items, run, false);
  }

  // ----- The status, said of the documents -----

  ghost predicate SomeBrought(store: Store, run: nat, statuses: set<DocumentStatus>) {
    exists d <- store.documents :: d.status in statuses && Brought(store.items, run, d.hash)
  }

  ghost predicate SomeMetFailed(store: Store, run: nat) {
    exists d <- store.documents :: d.status == DocumentStatus.Failed && MetAgain(store.items, run, d.hash)
  }

  lemma CountedIsSome(store: Store, run: nat, statuses: set<DocumentStatus>)
    ensures |BroughtWith(store.documents, store.items, run, statuses)| > 0 <==> SomeBrought(store, run, statuses)
    ensures |MetFailed(store.documents, store.items, run)| > 0 <==> SomeMetFailed(store, run)
  {
    var brought, met :=
        BroughtWith(store.documents, store.items, run, statuses), MetFailed(store.documents, store.items, run);
    if SomeBrought(store, run, statuses) {
      var d :| d in store.documents && d.status in statuses && Brought(store.items, run, d.hash);
      assert d.hash in brought;
    } else {
      assert brought == {};
    }
    if SomeMetFailed(store, run) {
      var d :| d in store.documents && d.status == DocumentStatus.Failed && MetAgain(store.items, run, d.hash);
      assert d.hash in met;
    } else {
      assert met == {};
    }
  }

  /** What a run reports, decided on the documents: whether some new one awaits review; whether some is still queued or
      in work; whether anything failed, an attachment, a new document or one met again; whether a new one was routed. */
  ghost function Reported(store: Store, run: nat, ingestionFailures: nat): R.RunStatus {
    var failed := ingestionFailures > 0 || SomeBrought(store, run, {DocumentStatus.Failed}) ||
        SomeMetFailed(store, run);
    if SomeBrought(store, run, {AwaitingReview}) then R.AwaitingReview
    else if SomeBrought(store, run, {DocumentStatus.Queued, Processing}) then R.Running
    else if !failed then R.Succeeded
    else if SomeBrought(store, run, {Routed}) then R.SucceededWithWarnings
    else R.Failed
  }

  lemma StatusMeansIn(store: Store, run: nat, ingestionFailures: nat)
    requires StoreOk(store)
    ensures Verdict(Recount(store, run, ingestionFailures), ItemsOf(store.items, run, true), ingestionFailures) ==
            Reported(store, run, ingestionFailures)
  {
    RecountMeans(store, run, ingestionFailures);
    VerdictMeansIn(store, run, ingestionFailures);
    CountedIsSome(store, run, {AwaitingReview});
    CountedIsSome(store, run, {DocumentStatus.Queued, Processing});
    CountedIsSome(store, run, {DocumentStatus.Failed});
    CountedIsSome(store, run, {Routed});
  }

  /** In every state that ingestions and processing can reach: each count is the size of what it is named after, and the
      status is the one decided on the documents. */
  lemma CountsAndStatusMean(steps: seq<Step>, run: nat, ingestionFailures: nat)
    ensures var store := Execution(EMPTY, steps).store;
            var c := Recount(store, run, ingestionFailures);
            && CountsMean(store, run, ingestionFailures, c)
            && Verdict(c, ItemsOf(store.items, run, true), ingestionFailures) == Reported(store, run, ingestionFailures)
  {
    NothingIsDuplicated(steps);
    RecountMeans(Execution(EMPTY, steps).store, run, ingestionFailures);
    StatusMeansIn(Execution(EMPTY, steps).store, run, ingestionFailures);
  }

  /** Succeeded says that every new document was routed and that nothing failed. */
  lemma SucceededMeansRouted(store: Store, run: nat, ingestionFailures: nat)
    ensures Reported(store, run, ingestionFailures) == R.Succeeded <==>
              && ingestionFailures == 0 && !SomeMetFailed(store, run)
              && forall d <- store.documents :: Brought(store.items, run, d.hash) ==> d.status == Routed
  {
    if Reported(store, run, ingestionFailures) == R.Succeeded {
      forall d | d in store.documents && Brought(store.items, run, d.hash)
        ensures d.status == Routed
      {
        assert d.status in {DocumentStatus.Queued, Processing, AwaitingReview, Routed, DocumentStatus.Failed};
      }
    }
  }

  // ----- The service -----

  const FINAL_STATUSES: set<R.RunStatus> :=
    {R.Succeeded, R.SucceededWithWarnings, R.PartiallyFailed, R.Failed, R.Cancelled}

  class Triage {
    var documents: seq<Document>
    var intakes: seq<Intake>
    var items: seq<RunItem>

    function Value(): Store
      reads this
    {
      Store(documents, intakes, items)
    }

    constructor ()
      ensures Value() == EMPTY.store
    {
      documents, intakes, items := [], [], [];
    }

    method LookUp(origin: (string, string)) returns (found: Option<Intake>)
      ensures found == FindIntake(intakes, origin)
    {
      for i := 0 to |intakes|
        invariant FindIntake(intakes, origin) == FindIntake(intakes[i..], origin)
      {
        if intakes[i].origin == origin {
          return Some(intakes[i]);
        }
        assert intakes[i..][1..] == intakes[i + 1..];
      }
      return None;
    }

    method GetOrCreateItem(run: nat, intake: Intake)
      modifies this`items
      ensures items == WithRepeat(old(items), run, intake)
    {
      for i := 0 to |items|
        invariant items == old(items) && forall j :: 0 <= j < i ==> !(items[j].run == run && items[j].intake == intake)
      {
        if items[i].run == run && items[i].intake == intake {
          return;
        }
      }
      items := items + [RunItem(run, intake, DuplicateSource)];
    }

    /** One ingestion; the result is its outcome, or none when it was refused. */
    method IngestDocument(request: Request) returns (outcome: Option<Outcome>)
      modifies this
      ensures Value() == Ingest(old(Value()), request)
      ensures outcome == Some(New) <==> |items| > |old(items)| && items[|items| - 1].outcome == New
    {
      var existing := LookUp(request.origin);
      if existing.Some? {
        if existing.value.hash != request.hash {
          return None;
        }
        GetOrCreateItem(request.run, existing.value);
        return Some(DuplicateSource);
      }
      var duplicate := exists d <- documents :: d.hash == request.hash;
      if duplicate {
        documents := WithPageCount(documents, request.hash, request.pageCount);
      } else {
        if !request.storable {
          return None;
        }
        documents := documents + [Document(request.hash, DocumentStatus.Queued, request.pageCount)];
      }
      var intake := Intake(request.origin, request.hash, request.run, duplicate);
      intakes := intakes + [intake];
      items := items + [RunItem(request.run, intake, if duplicate then DuplicateHash else New)];
      return Some(if duplicate then DuplicateHash else New);
    }

    method CountItems(run: nat, isNew: bool) returns (count: nat)
      ensures count == ItemsOf(items, run, isNew)
    {
      count := 0;
      for i := 0 to |items|
        invariant count == ItemsOf(items[..i], run, isNew)
      {
        assert items[..i + 1][..i] == items[..i];
        if items[i].run == run && (items[i].outcome == New) == isNew {
          count := count + 1;
        }
      }
      assert items[..|items|] == items;
    }

    method CountDocuments(run: nat, statuses: set<DocumentStatus>) returns (count: nat)
      ensures count == NewWith(documents, items, run, statuses)
    {
      count := 0;
      for i := 0 to |documents|
        invariant count == NewWith(documents[..i], items, run, statuses)
      {
        assert documents[..i + 1][..i] == documents[..i];
        if documents[i].status in statuses && IsNewIn(items, run, documents[i].hash) {
          count := count + 1;
        }
      }
      assert documents[..|documents|] == documents;
    }

    method CountFailedDuplicates(run: nat) returns (count: nat)
      ensures count == DuplicateFailed(documents, items, run)
    {
      count := 0;
      for i := 0 to |documents|
        invariant count == DuplicateFailed(documents[..i], items, run)
      {
        assert documents[..i + 1][..i] == documents[..i];
        if documents[i].status == Failed && IsDuplicateIn(items, run, documents[i].hash) {
          count := count + 1;
        }
      }
      assert documents[..|documents|] == documents;
    }

    /** The recount and the status it leads to; a final status is kept when asked for. */
    method Recompute(run: nat, ingestionFailures: nat, previous: R.RunStatus, preserveFinal: bool)
        returns (counts: Counts, status: R.RunStatus)
      ensures counts == Recount(Value(), run, ingestionFailures)
      ensures status ==
              if preserveFinal &&
                  (previous == R.Succeeded || previous == R.SucceededWithWarnings || previous == R.PartiallyFailed
                                   || previous == R.Failed || previous == R.Cancelled)
              then previous else Verdict(counts, ItemsOf(items, run, true), ingestionFailures)
      ensures StoreOk(Value()) ==> CountsMean(Value(), run, ingestionFailures, counts)
      ensures StoreOk(Value()) && !(preserveFinal && previous in FINAL_STATUSES) ==>
                status == Reported(Value(), run, ingestionFailures)
    {
      if StoreOk(Value()) {
        RecountMeans(Value(), run, ingestionFailures);
        StatusMeansIn(Value(), run, ingestionFailures);
      }
      var newCount := CountItems(run, true);
      var duplicates := CountItems(run, false);
      var routed := CountDocuments(run, {Routed});
      var awaitingReview := CountDocuments(run, {AwaitingReview});
      var inProgress := CountDocuments(run, {DocumentStatus.Queued, Processing});
      var failedNew := CountDocuments(run, {Failed});
      var duplicateFailed := CountFailedDuplicates(run);
      var failed := failedNew + ingestionFailures + duplicateFailed;
      counts := Counts(newCount + duplicates + ingestionFailures, routed, awaitingReview, inProgress, duplicates,
                       failed, duplicateFailed);
      if preserveFinal &&
          (previous == R.Succeeded || previous == R.SucceededWithWarnings || previous == R.PartiallyFailed
                           || previous == R.Failed || previous == R.Cancelled) {
        status := previous;
      } else if awaitingReview > 0 {
        status := R.AwaitingReview;
      } else if inProgress > 0 {
        status := R.Running;
      } else if failed > 0 && routed == 0 && failed >= newCount + ingestionFailures {
        status := R.Failed;
      } else if failed > 0 {
        status := R.SucceededWithWarnings;
      } else {
        status := R.Succeeded;
      }
    }
  }
}
