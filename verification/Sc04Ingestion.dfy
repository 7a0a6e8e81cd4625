/** SC-04 ingestion: content-addressed documents, intakes with a stable origin, and the items of each run, filled by
    concurrent workers that may stop between any two database operations. */
module Sc04Ingestion {
  import opened Options

  datatype DocumentStatus = Queued | Processing | AwaitingReview | Routed | Failed

  datatype Outcome = New | DuplicateSource | DuplicateHash

  datatype Document = Document(hash: string, status: DocumentStatus, pageCount: Option<nat>)

  /** One observed attachment; `origin` is the source and its normalized reference. */
  datatype Intake = Intake(origin: (string, string), hash: string, run: nat, duplicate: bool)

  datatype RunItem = RunItem(run: nat, intake: Intake, outcome: Outcome)

  datatype Store = Store(documents: seq<Document>, intakes: seq<Intake>, items: seq<RunItem>)

  /** What a worker is asked to ingest; `storable` is whether the object storage takes a new original. */
  datatype Request = Request(run: nat, origin: (string, string), hash: string, pageCount: Option<nat>, storable: bool)

  // ----- Look-ups -----

  predicate HasDocument(documents: seq<Document>, hash: string) {
    exists d <- documents :: d.hash == hash
  }

  function FindIntake(intakes: seq<Intake>, origin: (string, string)): (found: Option<Intake>)
    ensures found.Some? ==> found.value in intakes && found.value.origin == origin
    ensures found.None? ==> forall i <- intakes :: i.origin != origin
  {
    if intakes == [] then None
    else if intakes[0].origin == origin then Some(intakes[0])
    else FindIntake(intakes[1..], origin)
  }

  predicate HasItem(items: seq<RunItem>, run: nat, intake: Intake) {
    exists item <- items :: item.run == run && item.intake == intake
  }

  /** Get the item of this run and intake, or create it as a repeated source. */
  function WithRepeat(items: seq<RunItem>, run: nat, intake: Intake): seq<RunItem> {
    if HasItem(items, run, intake) then items else items + [RunItem(run, intake, DuplicateSource)]
  }

  /** A known document without a page count takes the one just read. */
  function WithPageCount(documents: seq<Document>, hash: string, pageCount: Option<nat>): (after: seq<Document>)
    ensures |after| == |documents|
    ensures forall i :: 0 <= i < |documents| ==>
            after[i].hash == documents[i].hash && after[i].status == documents[i].status
  {
    seq(|documents|, i requires 0 <= i < |documents| =>
      if documents[i].hash == hash && documents[i].pageCount.None? then documents[i].(pageCount := pageCount)
      else documents[i])
  }

  // ----- The three operations of one ingestion -----

  datatype Phase = Looking | Writing(created: bool) | Ended

  /** A worker's ingestion: it first looks for the origin, then for the content, then writes. */
  datatype Ingestion = Ingestion(request: Request, phase: Phase)

  /** A known origin ends the ingestion: refused for another content, and a repeat otherwise. */
  function Look(store: Store, request: Request): (Store, Phase) {
    var found := FindIntake(store.intakes, request.origin);
    if found.None? then (store, Looking)
    else if found.value.hash != request.hash then (store, Ended)
    else (store.(items := WithRepeat(store.items, request.run, found.value)), Ended)
  }

  /** Get or create the document; a refused original ends the ingestion. */
  function Find(store: Store, request: Request): (Store, Phase) {
    if HasDocument(store.documents, request.hash) then
      (store.(documents := WithPageCount(store.documents, request.hash, request.pageCount)), Writing(false))
    else if !request.storable then (store, Ended)
    else (store.(documents := store.documents + [Document(request.hash, Queued, request.pageCount)]), Writing(true))
  }

  /** Create the intake and its item; if another worker was faster, the origin is a repeat. */
  function Write(store: Store, request: Request, created: bool): Store {
    var found := FindIntake(store.intakes, request.origin);
    if found.Some? then
      if found.value.hash != request.hash then store
      else store.(items := WithRepeat(store.items, request.run, found.value))
    else
      var intake := Intake(request.origin, request.hash, request.run, !created);
      store.(intakes := store.intakes + [intake],
             items := store.items + [RunItem(request.run, intake, if created then New else DuplicateHash)])
  }

  /** An ingestion that nothing interrupts. */
  function Ingest(store: Store, request: Request): Store {
    var (looked, phase) := Look(store, request);
    if phase != Looking then looked
    else
      var (found, next) := Find(looked, request);
      if next.Writing? then Write(found, request, next.created) else found
  }

  // ----- Many workers -----

  datatype Archive = Archive(store: Store, ingestions: map<nat, Ingestion>)

  datatype Step =
    | Begin(worker: nat, request: Request)
    | Proceed(worker: nat)
    | Stop(worker: nat)
    | SetStatus(hash: string, status: DocumentStatus)

  function Next(a: Archive, step: Step): Archive {
    match step
    case Begin(w, request) =>
      if w in a.ingestions then a
      else
        var (store, phase) := Look(a.store, request);
        Archive(store, a.ingestions[w := Ingestion(request, phase)])
    case Proceed(w) =>
      if w !in a.ingestions then a
      else
        var ingestion := a.ingestions[w];
        if ingestion.phase.Looking? then
          var (store, phase) := Find(a.store, ingestion.request);
          Archive(store, a.ingestions[w := ingestion.(phase := phase)])
        else if ingestion.phase.Writing? then
          Archive(Write(a.store, ingestion.request, ingestion.phase.created),
                  a.ingestions[w := ingestion.(phase := Ended)])
        else a
    case Stop(w) =>
      if w !in a.ingestions then a else a.(ingestions := a.ingestions[w := a.ingestions[w].(phase := Ended)])
    case SetStatus(hash, status) => a.(store := a.store.(documents := WithStatus(a.store.documents, hash, status)))
  }

  function WithStatus(documents: seq<Document>, hash: string, status: DocumentStatus): (after: seq<Document>)
    ensures |after| == |documents| && forall i :: 0 <= i < |documents| ==> after[i].hash == documents[i].hash
  {
    seq(|documents|, i requires 0 <= i < |documents| =>
      if documents[i].hash == hash then documents[i].(status := status) else documents[i])
  }

  function Execution(a: Archive, steps: seq<Step>): Archive {
    if steps == [] then a else Next(Execution(a, steps[..|steps| - 1]), steps[|steps| - 1])
  }

  const EMPTY := Archive(Store([], [], []), map[])

  // ----- What is never duplicated -----

  predicate OnePerHash(documents: seq<Document>) {
    forall i, j :: 0 <= i < j < |documents| ==> documents[i].hash != documents[j].hash
  }

  predicate IntakesOk(store: Store) {
    && (forall i, j :: 0 <= i < j < |store.intakes| ==> store.intakes[i].origin != store.intakes[j].origin)
    && (forall intake <- store.intakes :: HasDocument(store.documents, intake.hash))
  }

  predicate ItemsOk(store: Store) {
    && (forall i, j :: 0 <= i < j < |store.items| ==>
        !(store.items[i].run == store.items[j].run && store.items[i].intake == store.items[j].intake))
    && (forall item <- store.items :: item.intake in store.intakes)
  }

  /** At most one item is new for a document, over all runs. */
  predicate NewOnce(items: seq<RunItem>) {
    forall i, j :: 0 <= i < j < |items| && items[i].outcome == New && items[j].outcome == New ==>
        items[i].intake.hash != items[j].intake.hash
  }

  predicate StoreOk(store: Store) {
    OnePerHash(store.documents) && IntakesOk(store) && ItemsOk(store) && NewOnce(store.items)
  }

  predicate HasNew(items: seq<RunItem>, hash: string) {
    exists item <- items :: item.outcome == New && item.intake.hash == hash
  }

  /** A worker that created a document is the only one that may still write its new item. */
  predicate CreatorsOk(a: Archive) {
    && (forall w <- a.ingestions :: a.ingestions[w].phase.Writing? ==>
        HasDocument(a.store.documents, a.ingestions[w].request.hash))
    && (forall w <- a.ingestions :: a.ingestions[w].phase == Writing(true) ==>
        !HasNew(a.store.items, a.ingestions[w].request.hash))
    && (forall w <- a.ingestions, v <- a.ingestions ::
          w != v && a.ingestions[w].phase == Writing(true) && a.ingestions[v].phase == Writing(true) ==>
            a.ingestions[w].request.hash != a.ingestions[v].request.hash)
  }

  predicate ArchiveOk(a: Archive) {
    StoreOk(a.store) && CreatorsOk(a)
  }

  // ----- Every step keeps it -----

  /** The same hashes are on record. */
  ghost predicate KeepsHashes(before: seq<Document>, after: seq<Document>) {
    && (forall i, j :: 0 <= i < j < |after| ==> after[i].hash != after[j].hash)
    && (forall h :: HasDocument(before, h) ==> HasDocument(after, h))
  }

  lemma SameHashes(before: seq<Document>, after: seq<Document>)
    requires OnePerHash(before) && |after| == |before| &&
             forall i :: 0 <= i < |before| ==> after[i].hash == before[i].hash
    ensures KeepsHashes(before, after)
    ensures forall h :: HasDocument(after, h) ==> HasDocument(before, h)
  {
    forall h | HasDocument(before, h)
      ensures HasDocument(after, h)
    {
      var d :| d in before && d.hash == h;
      var i :| 0 <= i < |before| && before[i] == d;
      assert after[i] in after;
    }
    forall h | HasDocument(after, h)
      ensures HasDocument(before, h)
    {
      var d :| d in after && d.hash == h;
      var i :| 0 <= i < |after| && after[i] == d;
      assert before[i] in before;
    }
  }

  lemma AddedHash(documents: seq<Document>, d: Document)
    requires OnePerHash(documents) && !HasDocument(documents, d.hash)
    ensures KeepsHashes(documents, documents + [d]) && HasDocument(documents + [d], d.hash)
  {
    assert (documents + [d])[|documents|] == d;
  }

  /** New documents only help. */
  lemma DocumentsOk(store: Store, documents: seq<Document>)
    requires StoreOk(store) && KeepsHashes(store.documents, documents)
    ensures StoreOk(store.(documents := documents))
  {
  }

  lemma RepeatOk(store: Store, run: nat, intake: Intake)
    requires StoreOk(store) && intake in store.intakes
    ensures StoreOk(store.(items := WithRepeat(store.items, run, intake)))
    ensures forall h :: HasNew(WithRepeat(store.items, run, intake), h) <==> HasNew(store.items, h)
  {
    var after := WithRepeat(store.items, run, intake);
    if !HasItem(store.items, run, intake) {
      var added := RunItem(run, intake, DuplicateSource);
      forall h | HasNew(after, h)
        ensures HasNew(store.items, h)
      {
        var item :| item in after && item.outcome == New && item.intake.hash == h;
        assert item in store.items;
      }
    }
  }

  lemma LookOk(store: Store, request: Request)
    requires StoreOk(store)
    ensures var (after, phase) := Look(store, request);
            && StoreOk(after) && after.documents == store.documents && phase != Writing(true) && phase != Writing(false)
            && forall h :: HasNew(after.items, h) <==> HasNew(store.items, h)
  {
    var found := FindIntake(store.intakes, request.origin);
    if found.Some? && found.value.hash == request.hash {
      RepeatOk(store, request.run, found.value);
    }
  }

  lemma FindOk(store: Store, request: Request)
    requires StoreOk(store)
    ensures var (after, phase) := Find(store, request);
            && StoreOk(after) && KeepsHashes(store.documents, after.documents) && after.items == store.items
            && (phase.Writing? ==> HasDocument(after.documents, request.hash))
            && (phase == Writing(true) ==>
                !HasDocument(store.documents, request.hash) && !HasNew(store.items, request.hash))
  {
    if HasDocument(store.documents, request.hash) {
      SameHashes(store.documents, WithPageCount(store.documents, request.hash, request.pageCount));
      DocumentsOk(store, WithPageCount(store.documents, request.hash, request.pageCount));
    } else {
      AddedHash(store.documents, Document(request.hash, Queued, request.pageCount));
      DocumentsOk(store, store.documents + [Document(request.hash, Queued, request.pageCount)]);
      NewHasDocument(store, request.hash);
    }
  }

  lemma NewHasDocument(store: Store, hash: string)
    requires IntakesOk(store) && ItemsOk(store)
    ensures HasNew(store.items, hash) ==> HasDocument(store.documents, hash)
  {
  }

  lemma WriteOk(store: Store, request: Request, created: bool)
    requires StoreOk(store) && HasDocument(store.documents, request.hash)
    requires created ==> !HasNew(store.items, request.hash)
    ensures var after := Write(store, request, created);
            && StoreOk(after) && after.documents == store.documents
            && forall h :: HasNew(after.items, h) ==> HasNew(store.items, h) || (created && h == request.hash)
  {
    var found := FindIntake(store.intakes, request.origin);
    if found.Some? {
      if found.value.hash == request.hash {
        RepeatOk(store, request.run, found.value);
      }
    } else {
      IntakeAdded(store, Intake(request.origin, request.hash, request.run, !created), request.run,
                  if created then New else DuplicateHash);
    }
  }

  lemma IntakeAdded(store: Store, intake: Intake, run: nat, outcome: Outcome)
    requires StoreOk(store) && HasDocument(store.documents, intake.hash) &&
             forall i <- store.intakes :: i.origin != intake.origin
    requires outcome == New ==> !HasNew(store.items, intake.hash)
    ensures var after :=
            store.(intakes := store.intakes + [intake], items := store.items + [RunItem(run, intake, outcome)]);
            && StoreOk(after)
            && forall h :: HasNew(after.items, h) ==> HasNew(store.items, h) || (outcome == New && h == intake.hash)
  {
    var item := RunItem(run, intake, outcome);
    var after := store.(intakes := store.intakes + [intake], items := store.items + [item]);
    assert intake in after.intakes;
    forall i | 0 <= i < |store.items|
      ensures store.items[i].intake in store.intakes && store.items[i].intake != intake
      ensures outcome == New && store.items[i].outcome == New ==> store.items[i].intake.hash != intake.hash
    {
      assert store.items[i] in store.items;
    }
    forall h | HasNew(after.items, h)
      ensures HasNew(store.items, h) || (outcome == New && h == intake.hash)
    {
      var found :| found in after.items && found.outcome == New && found.intake.hash == h;
      assert found in store.items || found == item;
    }
  }

  lemma BeginOk(a: Archive, step: Step)
    requires ArchiveOk(a) && step.Begin?
    ensures ArchiveOk(Next(a, step))
  {
    LookOk(a.store, step.request);
  }

  lemma LookingOk(a: Archive, w: nat)
    requires ArchiveOk(a) && w in a.ingestions && a.ingestions[w].phase == Looking
    ensures ArchiveOk(Next(a, Proceed(w)))
  {
    FindOk(a.store, a.ingestions[w].request);
  }

  lemma WritingOk(a: Archive, w: nat)
    requires ArchiveOk(a) && w in a.ingestions && a.ingestions[w].phase.Writing?
    ensures ArchiveOk(Next(a, Proceed(w)))
  {
    WriteOk(a.store, a.ingestions[w].request, a.ingestions[w].phase.created);
  }

  lemma SetStatusOk(a: Archive, step: Step)
    requires ArchiveOk(a) && step.SetStatus?
    ensures ArchiveOk(Next(a, step))
  {
    SameHashes(a.store.documents, WithStatus(a.store.documents, step.hash, step.status));
    DocumentsOk(a.store, WithStatus(a.store.documents, step.hash, step.status));
  }

  lemma NextOk(a: Archive, step: Step)
    requires ArchiveOk(a)
    ensures ArchiveOk(Next(a, step))
  {
    match step
    case Begin(_, _) => BeginOk(a, step);
    case SetStatus(_, _) => SetStatusOk(a, step);
    case Stop(_) =>
    case Proceed(w) =>
      if w in a.ingestions {
        if a.ingestions[w].phase == Looking {
          LookingOk(a, w);
        } else if a.ingestions[w].phase.Writing? {
          WritingOk(a, w);
        }
      }
  }

  /** Over every interleaving of ingestions in any runs, with any of them stopping anywhere: one document per
      content, one intake per origin, one item per run and intake, and at most one new item per document. */
  lemma {:induction false} NothingIsDuplicated(steps: seq<Step>)
    ensures ArchiveOk(Execution(EMPTY, steps))
    ensures StoreOk(Execution(EMPTY, steps).store)
    decreases |steps|
  {
    if steps != [] {
      NothingIsDuplicated(steps[..|steps| - 1]);
      NextOk(Execution(EMPTY, steps[..|steps| - 1]), steps[|steps| - 1]);
    }
  }

  // ----- Ingesting again -----

  function IngestAll(store: Store, requests: seq<Request>): Store {
    if requests == [] then store else Ingest(IngestAll(store, requests[..|requests| - 1]), requests[|requests| - 1])
  }

  /** Ingesting this request again changes nothing: its origin is known, for another content or with an item of
      this run; or its content is unknown and the storage refuses it. */
  predicate IsDone(store: Store, request: Request) {
    var found := FindIntake(store.intakes, request.origin);
    if found.Some? then found.value.hash != request.hash || HasItem(store.items, request.run, found.value)
    else !HasDocument(store.documents, request.hash) && !request.storable
  }

  lemma DoneIsKept(store: Store, request: Request)
    requires IsDone(store, request)
    ensures Ingest(store, request) == store
  {
  }

  lemma {:induction false} FindIntakeAppends(intakes: seq<Intake>, more: seq<Intake>, origin: (string, string))
    ensures FindIntake(intakes, origin).Some? ==> FindIntake(intakes + more, origin) == FindIntake(intakes, origin)
    ensures FindIntake(intakes, origin).None? ==> FindIntake(intakes + more, origin) == FindIntake(more, origin)
    decreases |intakes|
  {
    if intakes == [] {
      assert intakes + more == more;
    } else {
      assert (intakes + more)[1..] == intakes[1..] + more;
      FindIntakeAppends(intakes[1..], more, origin);
    }
  }

  predicate Grows(before: Store, after: Store) {
    && before.intakes <= after.intakes && before.items <= after.items
  }

  lemma DoneStays(before: Store, after: Store, request: Request)
    requires IsDone(before, request) && FindIntake(before.intakes, request.origin).Some? && Grows(before, after)
    ensures IsDone(after, request) && FindIntake(after.intakes, request.origin).Some?
  {
    var more := after.intakes[|before.intakes|..];
    assert after.intakes == before.intakes + more;
    FindIntakeAppends(before.intakes, more, request.origin);
    var found := FindIntake(before.intakes, request.origin).value;
    if HasItem(before.items, request.run, found) {
      var item :| item in before.items && item.run == request.run && item.intake == found;
      assert item in after.items;
    }
  }

  /** After an ingestion that the storage did not refuse, its origin is known and its run has an item. */
  lemma IngestedIsDone(store: Store, request: Request)
    requires request.storable
    ensures var after := Ingest(store, request);
            IsDone(after, request) && FindIntake(after.intakes, request.origin).Some?
  {
    var found := FindIntake(store.intakes, request.origin);
    if found.None? {
      var created := !HasDocument(store.documents, request.hash);
      var intake := Intake(request.origin, request.hash, request.run, !created);
      var item := RunItem(request.run, intake, if created then New else DuplicateHash);
      FindIntakeAppends(store.intakes, [intake], request.origin);
      assert item in store.items + [item];
    } else if found.value.hash == request.hash && !HasItem(store.items, request.run, found.value) {
      var item := RunItem(request.run, found.value, DuplicateSource);
      assert item in store.items + [item];
    }
  }

  lemma IngestGrows(store: Store, request: Request)
    ensures Grows(store, Ingest(store, request))
    ensures !IsDone(store, request) ==> |Ingest(store, request).items| > |store.items|
  {
  }

  lemma {:induction false} IngestAllGrows(store: Store, requests: seq<Request>)
    ensures Grows(store, IngestAll(store, requests))
    ensures |IngestAll(store, requests).items| == |store.items| <==> forall r <- requests :: IsDone(store, r)
    ensures (forall r <- requests :: IsDone(store, r)) ==> IngestAll(store, requests) == store
    decreases |requests|
  {
    if requests != [] {
      var init, last := requests[..|requests| - 1], requests[|requests| - 1];
      IngestAllGrows(store, init);
      var before := IngestAll(store, init);
      IngestGrows(before, last);
      assert requests == init + [last];
      if forall r <- init :: IsDone(store, r) {
        if IsDone(store, last) {
          DoneIsKept(store, last);
        }
      } else {
        assert |before.items| > |store.items|;
      }
    }
  }

  lemma {:induction false} IngestedAllDone(store: Store, requests: seq<Request>)
    requires forall r <- requests :: r.storable
    ensures forall r <- requests ::
              IsDone(IngestAll(store, requests), r) &&
              FindIntake(IngestAll(store, requests).intakes, r.origin).Some?
    decreases |requests|
  {
    if requests != [] {
      var init, last := requests[..|requests| - 1], requests[|requests| - 1];
      assert requests == init + [last];
      IngestedAllDone(store, init);
      var before, after := IngestAll(store, init), IngestAll(store, requests);
      IngestGrows(before, last);
      IngestedIsDone(before, last);
      forall r | r in init
        ensures IsDone(after, r) && FindIntake(after.intakes, r.origin).Some?
      {
        DoneStays(before, after, r);
      }
    }
  }

  /** Ingesting a list changes nothing exactly when each of its requests is done; and in particular ingesting again,
      in the same run, a list that the storage took changes nothing. */
  lemma IngestingAgain(store: Store, requests: seq<Request>)
    ensures IngestAll(store, requests) == store <==> forall r <- requests :: IsDone(store, r)
    ensures (forall r <- requests :: r.storable) ==>
            IngestAll(IngestAll(store, requests), requests) == IngestAll(store, requests)
  {
    IngestAllGrows(store, requests);
    IngestAllGrows(IngestAll(store, requests), requests);
    if forall r <- requests :: r.storable {
      IngestedAllDone(store, requests);
    }
  }

  /** A worker that nobody interleaves with ingests as one transaction would. */
  lemma UninterruptedIngestion(a: Archive, w: nat, request: Request)
    requires w !in a.ingestions
    ensures Execution(a, [Begin(w, request), Proceed(w), Proceed(w)]).store == Ingest(a.store, request)
  {
    var steps := [Begin(w, request), Proceed(w), Proceed(w)];
    assert steps[..2][..1] == steps[..1] && steps[..1][..0] == [];
    assert Execution(a, steps[..1]) == Next(a, steps[0]);
    assert Execution(a, steps[..2]) == Next(Execution(a, steps[..1]), steps[1]);
  }

  // ----- What one ingestion stores -----

  /** The documents with one more, queued for processing, when the content is new; with the page count filled in,
      where it was missing, when it is known. */
  predicate DocumentsAfter(before: seq<Document>, request: Request, known: bool, after: seq<Document>) {
    if !known then after == before + [Document(request.hash, DocumentStatus.Queued, request.pageCount)]
    else
      && |after| == |before|
      && forall i :: 0 <= i < |before| ==>
           after[i] == if before[i].hash == request.hash && before[i].pageCount == None
                       then before[i].(pageCount := request.pageCount) else before[i]
  }

  /** Every ingestion does one of five things. A known origin with other content is refused; with the same content it
      gives the run an item, once. A new origin gets an intake and an item: as new when its content is new and the
      storage takes it, as a duplicate when it is known; and nothing happens when the storage refuses it. */
  lemma IngestMeans(store: Store, request: Request)
    ensures var after := Ingest(store, request);
            var known := exists d <- store.documents :: d.hash == request.hash;
            && (OriginKnown(store, request) ==> Repeated(store, request, after))
            && (!OriginKnown(store, request) ==>
                  if !known && !request.storable then after == store
                  else
                    && DocumentsAfter(store.documents, request, known, after.documents)
                    && after.intakes == store.intakes + [Intake(request.origin, request.hash, request.run, known)]
                    && after.items == store.items +
                         [RunItem(request.run, Intake(request.origin, request.hash, request.run, known),
                                  if known then DuplicateHash else New)])
  {
    FirstIsFound(store.intakes, request.origin);
  }

  ghost predicate OriginKnown(store: Store, request: Request) {
    exists intake <- store.intakes :: intake.origin == request.origin
  }

  /** What is stored for a known origin: an item of the run, once, if the content is the same. */
  ghost predicate Repeated(before: Store, request: Request, after: Store) {
    && after.documents == before.documents && after.intakes == before.intakes
    && forall found <- before.intakes :: found.origin == request.origin && IsFirst(before.intakes, found) ==>
         after.items == if found.hash != request.hash || HasItem(before.items, request.run, found) then before.items
                        else before.items + [RunItem(request.run, found, DuplicateSource)]
  }

  /** The first step of a worker, whatever others did before it. */
  lemma BeginningMeans(a: Archive, w: nat, request: Request)
    requires w !in a.ingestions
    ensures var after := Next(a, Begin(w, request));
            if OriginKnown(a.store, request)
            then Repeated(a.store, request, after.store) &&
                 after.ingestions == a.ingestions[w := Ingestion(request, Ended)]
            else after.store == a.store && after.ingestions == a.ingestions[w := Ingestion(request, Looking)]
  {
    FirstIsFound(a.store.intakes, request.origin);
  }

  /** Its second step, on what is stored by then. */
  lemma FindingMeans(a: Archive, w: nat)
    requires w in a.ingestions && a.ingestions[w].phase == Looking
    ensures var request := a.ingestions[w].request;
            var known := exists d <- a.store.documents :: d.hash == request.hash;
            var after := Next(a, Proceed(w));
            && after.store.intakes == a.store.intakes && after.store.items == a.store.items
            && (if known || request.storable
                then DocumentsAfter(a.store.documents, request, known, after.store.documents)
                else after.store == a.store)
            && after.ingestions ==
                 a.ingestions[w := Ingestion(request, if known || request.storable then Writing(!known) else Ended)]
  {
  }

  /** Its third step: if another worker has taken the origin since, the run still gets its item; else the origin is
      recorded, as new for the worker that created the document. */
  lemma WritingMeans(a: Archive, w: nat)
    requires w in a.ingestions && a.ingestions[w].phase.Writing?
    ensures var request := a.ingestions[w].request;
            var created := a.ingestions[w].phase.created;
            var after := Next(a, Proceed(w));
            var intake := Intake(request.origin, request.hash, request.run, !created);
            && after.ingestions == a.ingestions[w := Ingestion(request, Ended)]
            && (if OriginKnown(a.store, request) then Repeated(a.store, request, after.store)
                else
                  && after.store.documents == a.store.documents && after.store.intakes == a.store.intakes + [intake]
                  && after.store.items ==
                       a.store.items + [RunItem(request.run, intake, if created then New else DuplicateHash)])
  {
    FirstIsFound(a.store.intakes, a.ingestions[w].request.origin);
  }

  /** A worker that writes leaves an item of its run for its origin, unless the origin holds other content. */
  lemma WrittenIsListed(a: Archive, w: nat)
    requires w in a.ingestions && a.ingestions[w].phase.Writing?
    ensures var request := a.ingestions[w].request;
            exists intake <- Next(a, Proceed(w)).store.intakes ::
              intake.origin == request.origin &&
              (intake.hash == request.hash ==> HasItem(Next(a, Proceed(w)).store.items, request.run, intake))
  {
    var request := a.ingestions[w].request;
    var after := Next(a, Proceed(w)).store;
    var found := FindIntake(a.store.intakes, request.origin);
    if found.Some? {
      assert found.value in after.intakes;
    } else {
      var intake := Intake(request.origin, request.hash, request.run, !a.ingestions[w].phase.created);
      assert after.intakes[|after.intakes| - 1] == intake;
      assert after.items[|after.items| - 1].intake == intake;
    }
  }

  /** No earlier intake has the same origin. */
  ghost predicate IsFirst(intakes: seq<Intake>, intake: Intake) {
    exists i :: 0 <= i < |intakes| && intakes[i] == intake &&
        forall j :: 0 <= j < i ==> intakes[j].origin != intake.origin
  }

  lemma {:induction false} FirstIsFound(intakes: seq<Intake>, origin: (string, string))
    ensures forall intake <- intakes :: intake.origin == origin && IsFirst(intakes, intake) ==>
            FindIntake(intakes, origin) == Some(intake)
    decreases |intakes|
  {
    if intakes != [] && intakes[0].origin != origin {
      FirstIsFound(intakes[1..], origin);
      forall intake | intake in intakes && intake.origin == origin && IsFirst(intakes, intake)
        ensures intake in intakes[1..] && IsFirst(intakes[1..], intake)
      {
        var i :| 0 <= i < |intakes| && intakes[i] == intake &&
            forall j :: 0 <= j < i ==> intakes[j].origin != intake.origin;
        assert intakes[1..][i - 1] == intake;
        assert forall j :: 0 <= j < i - 1 ==> intakes[1..][j] == intakes[j + 1];
      }
    }
  }

  /** Processing changes the status of its own document only. */
  lemma SetStatusMeans(a: Archive, hash: string, status: DocumentStatus)
    ensures var b := Next(a, SetStatus(hash, status));
            && b.store.intakes == a.store.intakes && b.store.items == a.store.items && b.ingestions == a.ingestions
            && |b.store.documents| == |a.store.documents|
            && forall i :: 0 <= i < |a.store.documents| ==>
                 b.store.documents[i] == if a.store.documents[i].hash == hash
                     then a.store.documents[i].(status := status)
                                         else a.store.documents[i]
  {
  }

  // ----- Documents that no run ever gets as new -----

  /** Worker `w` has created the document and still has to write its item. */
  predicate Creating(a: Archive, w: nat, hash: string) {
    w in a.ingestions && a.ingestions[w].phase == Writing(true) && a.ingestions[w].request.hash == hash
  }

  /** A document without a new item, and without a worker that could still write one. */
  ghost predicate Orphan(a: Archive, hash: string) {
    HasDocument(a.store.documents, hash) && !HasNew(a.store.items, hash) && forall w :: !Creating(a, w, hash)
  }

  /** The creator of the document stops before it writes, or finds its origin taken when it writes. */
  predicate Loses(a: Archive, step: Step, hash: string) {
    match step
    case Stop(w) => Creating(a, w, hash)
    case Proceed(w) => Creating(a, w, hash) && FindIntake(a.store.intakes, a.ingestions[w].request.origin).Some?
    case Begin(_, _) => false
    case SetStatus(_, _) => false
  }

  /** What one step does to the document, the new item and the creators of a hash. */
  lemma StepOnHash(a: Archive, step: Step, hash: string)
    requires ArchiveOk(a)
    ensures var b := Next(a, step);
            && ArchiveOk(b)
            && (HasDocument(a.store.documents, hash) ==> HasDocument(b.store.documents, hash))
            && (HasNew(a.store.items, hash) ==> HasNew(b.store.items, hash))
            && (HasDocument(b.store.documents, hash) ==>
                  HasDocument(a.store.documents, hash) || (step.Proceed? && Creating(b, step.worker, hash)))
            && (HasNew(b.store.items, hash) ==>
                  HasNew(a.store.items, hash) || (step.Proceed? && Creating(a, step.worker, hash)
                                                  && FindIntake(a.store.intakes,
                                                                a.ingestions[step.worker].request.origin).None?))
  {
    NextOk(a, step);
    if step.Begin? {
      LookOk(a.store, step.request);
    } else if step.SetStatus? {
      SameHashes(a.store.documents, WithStatus(a.store.documents, step.hash, step.status));
    } else if step.Proceed? && step.worker in a.ingestions {
      var ingestion := a.ingestions[step.worker];
      if ingestion.phase == Looking {
        FindOk(a.store, ingestion.request);
        FindOnHash(a.store, ingestion.request, hash);
      } else if ingestion.phase.Writing? {
        WriteOk(a.store, ingestion.request, ingestion.phase.created);
        WriteOnHash(a.store, ingestion.request, ingestion.phase.created, hash);
      }
    }
  }

  lemma FindOnHash(store: Store, request: Request, hash: string)
    requires StoreOk(store)
    ensures var (after, phase) := Find(store, request);
            HasDocument(after.documents, hash) ==>
              HasDocument(store.documents, hash) || (phase == Writing(true) && request.hash == hash)
  {
    if HasDocument(store.documents, request.hash) {
      SameHashes(store.documents, WithPageCount(store.documents, request.hash, request.pageCount));
    }
  }

  lemma WriteOnHash(store: Store, request: Request, created: bool, hash: string)
    requires StoreOk(store)
    ensures HasNew(store.items, hash) ==> HasNew(Write(store, request, created).items, hash)
    ensures FindIntake(store.intakes, request.origin).Some? ==>
              (HasNew(Write(store, request, created).items, hash) <==> HasNew(store.items, hash))
  {
    var found := FindIntake(store.intakes, request.origin);
    if found.Some? {
      RepeatOk(store, request.run, found.value);
    }
  }

  lemma CreatorsAfter(a: Archive, step: Step, v: nat, hash: string)
    requires ArchiveOk(a) && Creating(a, v, hash)
    ensures Creating(Next(a, step), v, hash) <==> !(step == Stop(v) || step == Proceed(v))
    ensures step == Proceed(v) && FindIntake(a.store.intakes, a.ingestions[v].request.origin).None? ==>
            HasNew(Next(a, step).store.items, hash)
  {
    var request := a.ingestions[v].request;
    if step == Proceed(v) && FindIntake(a.store.intakes, request.origin).None? {
      var item := RunItem(request.run, Intake(request.origin, hash, request.run, false), New);
      assert Next(a, step).store.items == a.store.items + [item];
      assert item in a.store.items + [item];
    }
  }

  lemma NewCreators(a: Archive, step: Step, w: nat, hash: string)
    requires ArchiveOk(a) && !Creating(a, w, hash) && Creating(Next(a, step), w, hash)
    ensures !HasDocument(a.store.documents, hash)
  {
    if step.Begin? {
      LookOk(a.store, step.request);
    }
  }

  /** It stays so: whoever brings the same content later finds a duplicate, and no run ever gets it as new. */
  lemma OrphanStays(a: Archive, step: Step, hash: string)
    requires ArchiveOk(a) && Orphan(a, hash)
    ensures ArchiveOk(Next(a, step)) && Orphan(Next(a, step), hash)
  {
    StepOnHash(a, step, hash);
    forall w
      ensures !Creating(Next(a, step), w, hash)
    {
      if Creating(Next(a, step), w, hash) {
        NewCreators(a, step, w, hash);
      }
    }
  }

  /** A step leaves a document without a new item for good exactly when it stops the creator before its write, or
      when that write finds the origin taken by another worker. */
  lemma OrphanedExactlyBy(a: Archive, step: Step, hash: string)
    requires ArchiveOk(a) && !Orphan(a, hash)
    ensures Orphan(Next(a, step), hash) <==> Loses(a, step, hash)
  {
    StepOnHash(a, step, hash);
    var b := Next(a, step);
    if Loses(a, step, hash) {
      forall v
        ensures !Creating(b, v, hash)
      {
        if Creating(b, v, hash) && !Creating(a, v, hash) {
          NewCreators(a, step, v, hash);
        } else if Creating(b, v, hash) {
          CreatorsAfter(a, step, v, hash);
        }
      }
    } else if Orphan(b, hash) {
      var v :| Creating(a, v, hash);
      CreatorsAfter(a, step, v, hash);
    }
  }

  /** Step number `k` of an execution lost the document. */
  predicate LostAt(steps: seq<Step>, k: nat, hash: string)
    requires k < |steps|
  {
    Loses(Execution(EMPTY, steps[..k]), steps[k], hash)
  }

  lemma LostAtSnoc(init: seq<Step>, last: Step, hash: string)
    ensures (exists k: nat :: k < |init| + 1 && LostAt(init + [last], k, hash)) <==>
            (exists k: nat :: k < |init| && LostAt(init, k, hash)) || Loses(Execution(EMPTY, init), last, hash)
  {
    var steps := init + [last];
    assert steps[..|init|] == init;
    assert LostAt(steps, |init|, hash) <==> Loses(Execution(EMPTY, init), last, hash);
    forall k: nat | k < |init|
      ensures LostAt(steps, k, hash) <==> LostAt(init, k, hash)
    {
      assert steps[..k] == init[..k];
    }
  }

  /** Hence over a whole execution: a document is an orphan exactly when some step lost it. */
  lemma {:induction false} OrphanIffLost(steps: seq<Step>, hash: string)
    ensures Orphan(Execution(EMPTY, steps), hash) <==> exists k: nat :: k < |steps| && LostAt(steps, k, hash)
    decreases |steps|
  {
    if steps != [] {
      var init, last := steps[..|steps| - 1], steps[|steps| - 1];
      assert steps == init + [last];
      NothingIsDuplicated(init);
      OrphanIffLost(init, hash);
      LostAtSnoc(init, last, hash);
      var a := Execution(EMPTY, init);
      if Orphan(a, hash) {
        OrphanStays(a, last, hash);
      } else {
        OrphanedExactlyBy(a, last, hash);
      }
    }
  }

  // ----- Both causes exist -----

  const LETTER: Request := Request(0, ("mail", "1"), "hash", None, true)

  lemma ExecutionSnoc(a: Archive, steps: seq<Step>, step: Step)
    ensures Execution(a, steps + [step]) == Next(Execution(a, steps), step)
  {
    assert (steps + [step])[..|steps|] == steps;
  }

  lemma AfterTwo(r: Request)
    requires r.storable
    ensures Execution(EMPTY, [Begin(0, r), Proceed(0)]) ==
            Archive(Store([Document(r.hash, Queued, r.pageCount)], [], []), map[0 := Ingestion(r, Writing(true))])
  {
    ExecutionSnoc(EMPTY, [], Begin(0, r));
    ExecutionSnoc(EMPTY, [Begin(0, r)], Proceed(0));
    assert [] + [Begin(0, r)] == [Begin(0, r)] && [Begin(0, r)] + [Proceed(0)] == [Begin(0, r), Proceed(0)];
  }

  /** The worker stops between its two transactions. */
  lemma StoppedCreatorLosesDocument()
    ensures Orphan(Execution(EMPTY, [Begin(0, LETTER), Proceed(0), Stop(0)]), LETTER.hash)
  {
    AfterTwo(LETTER);
    var a := Execution(EMPTY, [Begin(0, LETTER), Proceed(0)]);
    ExecutionSnoc(EMPTY, [Begin(0, LETTER), Proceed(0)], Stop(0));
    assert [Begin(0, LETTER), Proceed(0)] + [Stop(0)] == [Begin(0, LETTER), Proceed(0), Stop(0)];
    NothingIsDuplicated([Begin(0, LETTER), Proceed(0)]);
    assert Creating(a, 0, LETTER.hash);
    OrphanedExactlyBy(a, Stop(0), LETTER.hash);
  }

  /** No worker stops, but two of them ingest the same attachment: the second finds the document of the first and
      is the first to write, as a duplicate. Then the creator finds the origin taken. */
  lemma RaceLosesDocument()
    ensures Orphan(Execution(EMPTY,
                             [Begin(0, LETTER), Begin(1, LETTER), Proceed(0), Proceed(1), Proceed(1), Proceed(0)]),
                   LETTER.hash)
  {
    var intake := Intake(LETTER.origin, LETTER.hash, 0, true);
    var document := Document(LETTER.hash, Queued, None);
    var s1 := [Begin(0, LETTER)];
    var s2 := s1 + [Begin(1, LETTER)];
    var s3 := s2 + [Proceed(0)];
    var s4 := s3 + [Proceed(1)];
    var s5 := s4 + [Proceed(1)];
    ExecutionSnoc(EMPTY, [], Begin(0, LETTER));
    assert [] + [Begin(0, LETTER)] == s1;
    ExecutionSnoc(EMPTY, s1, Begin(1, LETTER));
    ExecutionSnoc(EMPTY, s2, Proceed(0));
    var a3 := Execution(EMPTY, s3);
    assert a3.store == Store([document], [], []);
    ExecutionSnoc(EMPTY, s3, Proceed(1));
    var a4 := Execution(EMPTY, s4);
    assert HasDocument(a3.store.documents, LETTER.hash) by {
      assert document in a3.store.documents;
    }
    assert a4.store == Store([document], [], []);
    ExecutionSnoc(EMPTY, s4, Proceed(1));
    var a5 := Execution(EMPTY, s5);
    assert a5.store == Store([document], [intake], [RunItem(0, intake, DuplicateHash)]);
    assert Creating(a5, 0, LETTER.hash) && FindIntake(a5.store.intakes, LETTER.origin).Some?;
    ExecutionSnoc(EMPTY, s5, Proceed(0));
    assert s5 + [Proceed(0)] == [Begin(0, LETTER), Begin(1, LETTER), Proceed(0), Proceed(1), Proceed(1), Proceed(0)];
    NothingIsDuplicated(s5);
    OrphanedExactlyBy(a5, Proceed(0), LETTER.hash);
  }
}
