/** A scan while others work on the same ledger: between any two of its transactions and calls, other deliveries may
    prepare, send, record and retry, and certificates may be edited. */
module Sc20Interleaved {
  import opened Options
  import opened Sc20Ledger
  import opened Sc20Scan

  /** What others do before the scan prepares a notice, before it sends it, and before it records the answer. */
  datatype Meanwhile = Meanwhile(beforePrepare: seq<Step>, beforeSend: seq<Step>, beforeRecord: seq<Step>)

  type Others = nat -> Meanwhile

  /** Delivery `d` belongs to the scan; nobody else touches it. */
  predicate Touches(step: Step, d: nat) {
    match step
    case EditCertificate(_) => false
    case Scan(e, _, _, _, _) => e == d
    case Retry(e, _, _, _) => e == d
    case Send(e, _) => e == d
    case Conclude(e, _) => e == d
  }

  predicate Foreign(steps: seq<Step>, d: nat) {
    forall step <- steps :: !Touches(step, d)
  }

  predicate ForeignMeanwhile(m: Meanwhile, d: nat) {
    Foreign(m.beforePrepare, d) && Foreign(m.beforeSend, d) && Foreign(m.beforeRecord, d)
  }

  /** None of the `n` deliveries from `first` on is touched. */
  ghost predicate ForeignAll(m: Meanwhile, first: nat, n: nat) {
    forall d: nat :: first <= d < first + n ==> ForeignMeanwhile(m, d)
  }

  ghost predicate ForeignOthers(others: Others, first: nat, n: nat) {
    forall i: nat :: i < n ==> ForeignAll(others(i), first, n)
  }

  function CountOf(outcome: Finalized): ScanResult {
    match outcome
    case Recorded(_, status) => if status == Sent then ScanResult(0, 1, 0, 0) else ScanResult(0, 0, 1, 0)
    case Already(status) => if status == Sent then ScanResult(0, 1, 0, 0) else ScanResult(0, 0, 1, 0)
    case Unknown => NOTHING
  }

  /** One certificate of the scan, as its delivery `d`. */
  function ScanOne(o: Office, d: nat, id: nat, run: nat, policy: Policy, answer: bool, m: Meanwhile)
    : (Office, ScanResult) {
    var prepared := Next(Execution(o, m.beforePrepare), Step.Scan(d, run, id, policy, true));
    if d !in prepared.deliveries then (prepared, ScanResult(0, 0, 0, 1))
    else
      var sent := Next(Execution(prepared, m.beforeSend), Step.Send(d, answer));
      var recording := Execution(sent, m.beforeRecord);
      var delivery := prepared.deliveries[d];
      (Next(recording, Step.Conclude(d, true)),
       CountOf(Finalize(recording.ledger, delivery.key, delivery.sequence, answer)))
  }

  /** How the scan treats its `k`-th certificate. */
  type Treatment = (Office, nat) -> (Office, ScanResult)

  function Treat(ids: seq<nat>, first: nat, run: nat, policy: Policy, answers: nat -> bool, others: Others): Treatment {
    (o: Office, k: nat) => ScanOne(o, first + k, if k < |ids| then ids[k] else 0, run, policy, answers(k), others(k))
  }

  /** The first `n` certificates, one after the other. */
  function ScanMany(o: Office, n: nat, treat: Treatment): (Office, ScanResult) {
    if n == 0 then (o, NOTHING)
    else
      var (before, counted) := ScanMany(o, n - 1, treat);
      var (after, result) := treat(before, n - 1);
      (after, Plus(Plus(counted, ScanResult(1, 0, 0, 0)), result))
  }

  // ----- What any step keeps -----

  predicate LedgerGrows(before: Ledger, after: Ledger) {
    forall key <- before :: key in after && |before[key].attempts| <= |after[key].attempts|
  }

  predicate Grows(o: Office, after: Office) {
    && o.certificates.Keys <= after.certificates.Keys && LedgerGrows(o.ledger, after.ledger) && o.sends <= after.sends
  }

  lemma LedgersGrow(ledger: Ledger, key: NoticeKey, run: nat, certificate: Certificate, sequence: nat, delivered: bool)
    ensures var r := PrepareNew(ledger, key, run); r.Some? ==> LedgerGrows(ledger, r.value)
    ensures var r := PrepareRetry(ledger, key, run, certificate); r.Some? ==> LedgerGrows(ledger, r.value)
    ensures var r := Finalize(ledger, key, sequence, delivered); r.Recorded? ==> LedgerGrows(ledger, r.ledger)
  {
  }

  lemma PrepareGrows(o: Office, step: Step)
    requires step.Scan? || step.Retry?
    ensures Grows(o, Next(o, step))
  {
    if step.Scan? && step.certificate in o.certificates {
      LedgersGrow(o.ledger, KeyOf(o.certificates[step.certificate], step.policy), step.run,
                  o.certificates[step.certificate], 0, true);
    } else if step.Retry? && step.key.certificate in o.certificates {
      LedgersGrow(o.ledger, step.key, step.run, o.certificates[step.key.certificate], 0, true);
    }
  }

  lemma ConcludeGrows(o: Office, step: Step)
    requires step.Conclude?
    ensures Grows(o, Next(o, step))
  {
    if step.delivery in o.deliveries && o.deliveries[step.delivery].phase.Answered? {
      var delivery := o.deliveries[step.delivery];
      LedgersGrow(o.ledger, delivery.key, 0, Certificate(0, true, 0, Unset), delivery.sequence,
                  delivery.phase.delivered);
    }
  }

  lemma NextGrows(o: Office, step: Step)
    ensures Grows(o, Next(o, step))
  {
    if step.Scan? || step.Retry? {
      PrepareGrows(o, step);
    } else if step.Conclude? {
      ConcludeGrows(o, step);
    }
  }

  lemma GrowsTransitive(o: Office, middle: Office, after: Office)
    requires Grows(o, middle) && Grows(middle, after)
    ensures Grows(o, after)
  {
    forall key | key in o.ledger
      ensures key in after.ledger && |o.ledger[key].attempts| <= |after.ledger[key].attempts|
    {
      assert key in middle.ledger;
    }
  }

  lemma {:induction false} ExecutionGrows(o: Office, steps: seq<Step>)
    ensures Grows(o, Execution(o, steps))
    decreases |steps|
  {
    if steps != [] {
      var before := Execution(o, steps[..|steps| - 1]);
      ExecutionGrows(o, steps[..|steps| - 1]);
      NextGrows(before, steps[|steps| - 1]);
      GrowsTransitive(o, before, Next(before, steps[|steps| - 1]));
    }
  }

  predicate SameDelivery(o: Office, after: Office, d: nat) {
    (d in o.deliveries <==> d in after.deliveries) && (d in o.deliveries ==> after.deliveries[d] == o.deliveries[d])
  }

  lemma ForeignStep(o: Office, step: Step, d: nat)
    requires !Touches(step, d)
    ensures SameDelivery(o, Next(o, step), d)
  {
  }

  lemma {:induction false} ForeignKeeps(o: Office, steps: seq<Step>, d: nat)
    requires Foreign(steps, d)
    ensures SameDelivery(o, Execution(o, steps), d)
    decreases |steps|
  {
    if steps != [] {
      var init, last := steps[..|steps| - 1], steps[|steps| - 1];
      assert last in steps && forall step <- init :: step in steps;
      ForeignKeeps(o, init, d);
      ForeignStep(Execution(o, init), last, d);
    }
  }

  predicate Edits(steps: seq<Step>, id: nat) {
    exists step <- steps :: step.EditCertificate? && step.edited.id == id
  }

  lemma {:induction false} UneditedKeeps(o: Office, steps: seq<Step>, id: nat)
    requires !Edits(steps, id) && id in o.certificates
    ensures id in Execution(o, steps).certificates && Execution(o, steps).certificates[id] == o.certificates[id]
    decreases |steps|
  {
    if steps != [] {
      var init, last := steps[..|steps| - 1], steps[|steps| - 1];
      assert last in steps && forall step <- init :: step in steps;
      UneditedKeeps(o, init, id);
    }
  }

  // ----- One certificate -----

  /** A notice that the scan has sent and whose answer it has recorded. */
  predicate Settled(o: Office, d: nat) {
    d in o.deliveries && o.deliveries[d].phase == Ended && (o.deliveries[d].key, o.deliveries[d].sequence) in o.sends
  }

  lemma SettledStays(o: Office, after: Office, d: nat)
    requires Settled(o, d) && SameDelivery(o, after, d) && o.sends <= after.sends
    ensures Settled(after, d)
  {
    var i :| 0 <= i < |o.sends| && o.sends[i] == (o.deliveries[d].key, o.deliveries[d].sequence);
    assert after.sends[i] == o.sends[i];
  }

  /** The scan's own delivery and the attempt it works on, from the preparation on. */
  predicate Holds(o: Office, d: nat, delivery: Delivery) {
    && d in o.deliveries && o.deliveries[d] == delivery
    && delivery.key in o.ledger && 1 <= delivery.sequence <= |o.ledger[delivery.key].attempts|
  }

  /** Preparing makes the scan's delivery exactly when the certificate has no communication yet, and leaves one. */
  lemma PreparedOne(o: Office, d: nat, run: nat, id: nat, policy: Policy)
    requires d !in o.deliveries && id in o.certificates
    ensures var key := KeyOf(o.certificates[id], policy);
            var after := Next(o, Step.Scan(d, run, id, policy, true));
            && key in after.ledger
            && (d in after.deliveries <==> key !in o.ledger)
            && (d in after.deliveries ==> after.deliveries[d].phase == Prepared && Holds(after, d, after.deliveries[d]))
            && (key in o.ledger ==> after == o)
  {
    PrepareNewOk(o.ledger, KeyOf(o.certificates[id], policy), run);
  }

  lemma HeldThroughout(o: Office, steps: seq<Step>, d: nat, delivery: Delivery)
    requires Holds(o, d, delivery) && Foreign(steps, d)
    ensures Holds(Execution(o, steps), d, delivery) && Grows(o, Execution(o, steps))
  {
    ExecutionGrows(o, steps);
    ForeignKeeps(o, steps, d);
    assert delivery.key in o.ledger;
  }

  lemma SentOne(o: Office, d: nat, delivery: Delivery, answer: bool)
    requires Holds(o, d, delivery) && delivery.phase == Prepared
    ensures var after := Next(o, Step.Send(d, answer));
            && Grows(o, after) && Holds(after, d, delivery.(phase := Answered(answer)))
            && after.sends == o.sends + [(delivery.key, delivery.sequence)]
  {
  }

  lemma RecordedOne(o: Office, d: nat, delivery: Delivery, answer: bool)
    requires Holds(o, d, delivery) && delivery.phase == Answered(answer) && (delivery.key, delivery.sequence) in o.sends
    ensures var count := CountOf(Finalize(o.ledger, delivery.key, delivery.sequence, answer));
            && Settled(Next(o, Step.Conclude(d, true)), d)
            && count.selected == 0 && count.sent + count.failed == 1 && count.deduplicated == 0
  {
  }

  predicate OneNotice(after: Office, d: nat, result: ScanResult) {
    && result.selected == 0 && result.sent + result.failed + result.deduplicated == 1
    && (if d in after.deliveries then result.deduplicated == 0 && Settled(after, d) else result.deduplicated == 1)
  }

  /** From the preparation to the recorded answer. */
  lemma SendOneCounts(prepared: Office, d: nat, answer: bool, m: Meanwhile)
    requires d in prepared.deliveries && Holds(prepared, d, prepared.deliveries[d]) &&
             prepared.deliveries[d].phase == Prepared
    requires ForeignMeanwhile(m, d)
    ensures var sent := Next(Execution(prepared, m.beforeSend), Step.Send(d, answer));
            var recording := Execution(sent, m.beforeRecord);
            var delivery := prepared.deliveries[d];
            var after := Next(recording, Step.Conclude(d, true));
            && Grows(prepared, after)
            && OneNotice(after, d, CountOf(Finalize(recording.ledger, delivery.key, delivery.sequence, answer)))
  {
    var delivery := prepared.deliveries[d];
    var sending := Execution(prepared, m.beforeSend);
    HeldThroughout(prepared, m.beforeSend, d, delivery);
    SentOne(sending, d, delivery, answer);
    var sent := Next(sending, Step.Send(d, answer));
    var answered := delivery.(phase := Answered(answer));
    HeldThroughout(sent, m.beforeRecord, d, answered);
    var recording := Execution(sent, m.beforeRecord);
    assert sent.sends[|sending.sends|] == (delivery.key, delivery.sequence) == recording.sends[|sending.sends|];
    RecordedOne(recording, d, answered, answer);
    NextGrows(recording, Step.Conclude(d, true));
    GrowsTransitive(prepared, sending, sent);
    GrowsTransitive(prepared, sent, recording);
    GrowsTransitive(prepared, recording, Next(recording, Step.Conclude(d, true)));
  }

  lemma ScanOneCounts(o: Office, d: nat, id: nat, run: nat, policy: Policy, answer: bool, m: Meanwhile)
    requires d !in o.deliveries && id in o.certificates && ForeignMeanwhile(m, d)
    ensures var (after, result) := ScanOne(o, d, id, run, policy, answer, m);
            var reached := Execution(o, m.beforePrepare);
            && OneNotice(after, d, result) && Grows(o, after)
            && id in reached.certificates && KeyOf(reached.certificates[id], policy) in after.ledger
            && (KeyOf(reached.certificates[id], policy) in reached.ledger ==> d !in after.deliveries)
  {
    var reached := Execution(o, m.beforePrepare);
    ExecutionGrows(o, m.beforePrepare);
    ForeignKeeps(o, m.beforePrepare, d);
    PreparedOne(reached, d, run, id, policy);
    var prepared := Next(reached, Step.Scan(d, run, id, policy, true));
    NextGrows(reached, Step.Scan(d, run, id, policy, true));
    GrowsTransitive(o, reached, prepared);
    if d in prepared.deliveries {
      SendOneCounts(prepared, d, answer, m);
      GrowsTransitive(o, prepared, ScanOne(o, d, id, run, policy, answer, m).0);
    }
  }

  /** The other deliveries of the scan stay as they are. */
  lemma ScanOneKeeps(o: Office, d: nat, id: nat, run: nat, policy: Policy, answer: bool, m: Meanwhile, e: nat)
    requires e != d && ForeignMeanwhile(m, e)
    ensures SameDelivery(o, ScanOne(o, d, id, run, policy, answer, m).0, e)
  {
    ForeignKeeps(o, m.beforePrepare, e);
    var reached := Execution(o, m.beforePrepare);
    var prepared := Next(reached, Step.Scan(d, run, id, policy, true));
    ForeignStep(reached, Step.Scan(d, run, id, policy, true), e);
    ForeignKeeps(prepared, m.beforeSend, e);
    ForeignStep(Execution(prepared, m.beforeSend), Step.Send(d, answer), e);
    var sent := Next(Execution(prepared, m.beforeSend), Step.Send(d, answer));
    ForeignKeeps(sent, m.beforeRecord, e);
    ForeignStep(Execution(sent, m.beforeRecord), Step.Conclude(d, true), e);
  }

  // ----- The whole scan -----

  /** The notices that the scan has made so far. */
  function Own(o: Office, first: nat, n: nat): set<nat> {
    set d: nat | first <= d < first + n && d in o.deliveries
  }

  ghost predicate Unused(o: Office, first: nat, from: nat, to: nat) {
    forall d: nat :: first + from <= d < first + to ==> d !in o.deliveries
  }

  ghost predicate Counted(o: Office, after: Office, n: nat, first: nat, result: ScanResult) {
    && Grows(o, after)
    && result.selected == n == result.sent + result.failed + result.deduplicated
    && |Own(after, first, n)| == result.sent + result.failed
    && forall d <- Own(after, first, n) :: Settled(after, d)
  }

  lemma OwnNext(o: Office, after: Office, first: nat, n: nat)
    requires forall d: nat :: first <= d < first + n ==> SameDelivery(o, after, d)
    ensures |Own(after, first, n + 1)| == |Own(o, first, n)| + (if first + n in after.deliveries then 1 else 0)
    ensures Own(after, first, n + 1) <= Own(o, first, n) + {first + n}
  {
    var own, next := Own(o, first, n), Own(after, first, n + 1);
    forall d: nat | first <= d < first + n
      ensures d in next <==> d in own
    {
      assert SameDelivery(o, after, d);
    }
    assert next == if first + n in after.deliveries then own + {first + n} else own;
    assert first + n !in own;
  }

  lemma CountedNext(o: Office, before: Office, after: Office, n: nat, first: nat, counted: ScanResult,
                    result: ScanResult)
    requires Counted(o, before, n, first, counted) && OneNotice(after, first + n, result) && Grows(before, after)
    requires forall d: nat :: first <= d < first + n ==> SameDelivery(before, after, d)
    ensures Counted(o, after, n + 1, first, Plus(Plus(counted, ScanResult(1, 0, 0, 0)), result))
  {
    OwnNext(before, after, first, n);
    GrowsTransitive(o, before, after);
    forall d | d in Own(after, first, n + 1)
      ensures Settled(after, d)
    {
      if d != first + n {
        assert d in Own(before, first, n) && SameDelivery(before, after, d);
        SettledStays(before, after, d);
      }
    }
  }

  /** One more certificate: its notice, and nothing done to the scan's other deliveries. */
  ghost predicate OneMore(before: Office, after: Office, result: ScanResult, first: nat, k: nat, total: nat) {
    && OneNotice(after, first + k, result) && Grows(before, after)
    && forall d: nat :: first <= d < first + total && d != first + k ==> SameDelivery(before, after, d)
  }

  lemma ScanOthersSame(o: Office, first: nat, k: nat, total: nat, id: nat, run: nat, policy: Policy, answer: bool,
                       m: Meanwhile, after: Office)
    requires k < total && ForeignAll(m, first, total) && after == ScanOne(o, first + k, id, run, policy, answer, m).0
    ensures forall d: nat :: first <= d < first + total && d != first + k ==> SameDelivery(o, after, d)
  {
    forall d: nat
      ensures first <= d < first + total && d != first + k ==> SameDelivery(o, after, d)
    {
      if first <= d < first + total && d != first + k {
        assert ForeignMeanwhile(m, d);
        ScanOneKeeps(o, first + k, id, run, policy, answer, m, d);
      }
    }
  }

  lemma ScanOneMore(o: Office, first: nat, k: nat, total: nat, id: nat, run: nat, policy: Policy, answer: bool,
                    m: Meanwhile)
    requires k < total && first + k !in o.deliveries && id in o.certificates && ForeignAll(m, first, total)
    ensures var (after, result) := ScanOne(o, first + k, id, run, policy, answer, m);
            OneMore(o, after, result, first, k, total)
  {
    assert ForeignMeanwhile(m, first + k);
    ScanOneCounts(o, first + k, id, run, policy, answer, m);
    ScanOthersSame(o, first, k, total, id, run, policy, answer, m, ScanOne(o, first + k, id, run, policy, answer, m).0);
  }

  lemma CountedOneMore(o: Office, before: Office, after: Office, n: nat, first: nat, total: nat, counted: ScanResult,
                       result: ScanResult)
    requires Counted(o, before, n, first, counted) && Unused(before, first, n, total)
    requires n < total && OneMore(before, after, result, first, n, total)
    ensures Counted(o, after, n + 1, first, Plus(Plus(counted, ScanResult(1, 0, 0, 0)), result))
    ensures Unused(after, first, n + 1, total)
  {
    CountedNext(o, before, after, n, first, counted, result);
    forall d: nat | first + n + 1 <= d < first + total
      ensures d !in after.deliveries
    {
      assert SameDelivery(before, after, d);
    }
  }

  /** The treatment adds one notice at a time, wherever the office has got to since `o`. */
  ghost predicate AddsOne(o: Office, treat: Treatment, first: nat, total: nat) {
    forall before: Office, k: nat :: k < total && Grows(o, before) && first + k !in before.deliveries ==>
      AddsAt(treat, before, k, first, total)
  }

  ghost predicate AddsAt(treat: Treatment, before: Office, k: nat, first: nat, total: nat) {
    OneMore(before, treat(before, k).0, treat(before, k).1, first, k, total)
  }

  lemma {:induction false} CountsUpTo(o: Office, n: nat, treat: Treatment, first: nat, total: nat)
    requires n <= total && AddsOne(o, treat, first, total) && Unused(o, first, 0, total)
    ensures var (after, result) := ScanMany(o, n, treat);
            Counted(o, after, n, first, result) && Unused(after, first, n, total)
    decreases n
  {
    if n == 0 {
      assert Own(o, first, 0) == {};
    } else {
      CountsUpTo(o, n - 1, treat, first, total);
      var (before, counted) := ScanMany(o, n - 1, treat);
      var (after, result) := treat(before, n - 1);
      assert AddsAt(treat, before, n - 1, first, total);
      CountedOneMore(o, before, after, n - 1, first, total, counted, result);
    }
  }

  lemma TreatIs(ids: seq<nat>, first: nat, run: nat, policy: Policy, answers: nat -> bool, others: Others, o: Office,
                k: nat)
    requires k < |ids|
    ensures Treat(ids, first, run, policy, answers, others)(o, k) ==
            ScanOne(o, first + k, ids[k], run, policy, answers(k), others(k))
  {
  }

  lemma TreatAddsOneAt(o: Office, ids: seq<nat>, first: nat, run: nat, policy: Policy, answers: nat -> bool,
                       others: Others, before: Office, k: nat)
    requires ForeignAll(others(k), first, |ids|) && k < |ids| && ids[k] in before.certificates &&
             first + k !in before.deliveries
    ensures AddsAt(Treat(ids, first, run, policy, answers, others), before, k, first, |ids|)
  {
    ScanOneMore(before, first, k, |ids|, ids[k], run, policy, answers(k), others(k));
    TreatIs(ids, first, run, policy, answers, others, before, k);
  }

  lemma TreatAddsOne(o: Office, ids: seq<nat>, first: nat, run: nat, policy: Policy, answers: nat -> bool,
                     others: Others)
    requires ForeignOthers(others, first, |ids|) && forall id <- ids :: id in o.certificates
    ensures AddsOne(o, Treat(ids, first, run, policy, answers, others), first, |ids|)
  {
    var treat := Treat(ids, first, run, policy, answers, others);
    forall before: Office, k: nat | k < |ids| && Grows(o, before) && first + k !in before.deliveries
      ensures AddsAt(treat, before, k, first, |ids|)
    {
      assert ids[k] in o.certificates && ForeignAll(others(k), first, |ids|);
      assert ids[k] in before.certificates;
      TreatAddsOneAt(o, ids, first, run, policy, answers, others, before, k);
    }
  }

  /** Whatever others do in between, a scan that completes counts every selected certificate once, as sent, failed or
      deduplicated; and it has made, sent and settled exactly as many notices as it counts sent or failed. */
  lemma InterleavedScanCounts(o: Office, ids: seq<nat>, first: nat, run: nat, policy: Policy, answers: nat -> bool,
                              others: Others)
    requires ForeignOthers(others, first, |ids|) && Unused(o, first, 0, |ids|)
    requires forall id <- ids :: id in o.certificates
    ensures var (after, result) := ScanMany(o, |ids|, Treat(ids, first, run, policy, answers, others));
            && result.selected == |ids| == result.sent + result.failed + result.deduplicated
            && |Own(after, first, |ids|)| == result.sent + result.failed
            && forall d <- Own(after, first, |ids|) :: Settled(after, d)
  {
    TreatAddsOne(o, ids, first, run, policy, answers, others);
    CountsUpTo(o, |ids|, Treat(ids, first, run, policy, answers, others), first, |ids|);
  }

  // ----- A second scan -----

  predicate EditsMeanwhile(m: Meanwhile, id: nat) {
    Edits(m.beforePrepare, id) || Edits(m.beforeSend, id) || Edits(m.beforeRecord, id)
  }

  predicate Unedited(others: Others, n: nat, ids: seq<nat>) {
    forall i, id :: 0 <= i < n && id in ids ==> !EditsMeanwhile(others(i), id)
  }

  lemma ScanOneUnedited(o: Office, d: nat, id: nat, run: nat, policy: Policy, answer: bool, m: Meanwhile, c: nat)
    requires c in o.certificates && !EditsMeanwhile(m, c)
    ensures var after := ScanOne(o, d, id, run, policy, answer, m).0;
            c in after.certificates && after.certificates[c] == o.certificates[c]
  {
    UneditedKeeps(o, m.beforePrepare, c);
    var prepared := Next(Execution(o, m.beforePrepare), Step.Scan(d, run, id, policy, true));
    UneditedKeeps(prepared, m.beforeSend, c);
    var sent := Next(Execution(prepared, m.beforeSend), Step.Send(d, answer));
    UneditedKeeps(sent, m.beforeRecord, c);
  }

  /** Every certificate has its communication, and is as it was. */
  predicate Covered(o: Office, after: Office, ids: seq<nat>, policy: Policy) {
    forall id <- ids :: id in o.certificates && KeyOf(o.certificates[id], policy) in after.ledger
  }

  predicate SameCertificates(o: Office, after: Office, ids: seq<nat>) {
    forall id <- ids :: id in o.certificates && id in after.certificates && after.certificates[id] == o.certificates[id]
  }

  /** One more certificate, while none is edited: it has its communication then, and makes no notice if it had one. */
  predicate CoversOne(o: Office, before: Office, after: Office, id: nat, d: nat, ids: seq<nat>, policy: Policy) {
    && SameCertificates(o, after, ids) && id in o.certificates
    && KeyOf(o.certificates[id], policy) in after.ledger
    && (KeyOf(o.certificates[id], policy) in before.ledger ==> d !in after.deliveries)
  }

  lemma ScanOneCovers(o: Office, before: Office, d: nat, id: nat, ids: seq<nat>, run: nat, policy: Policy,
                      answer: bool, m: Meanwhile)
    requires id in ids && d !in before.deliveries && ForeignMeanwhile(m, d) && SameCertificates(o, before, ids)
    requires forall c <- ids :: !EditsMeanwhile(m, c)
    ensures CoversOne(o, before, ScanOne(before, d, id, run, policy, answer, m).0, id, d, ids, policy)
  {
    ScanOneCounts(before, d, id, run, policy, answer, m);
    UneditedKeeps(before, m.beforePrepare, id);
    ExecutionGrows(before, m.beforePrepare);
    var after := ScanOne(before, d, id, run, policy, answer, m).0;
    forall c | c in ids
      ensures c in o.certificates && c in after.certificates && after.certificates[c] == o.certificates[c]
    {
      ScanOneUnedited(before, d, id, run, policy, answer, m, c);
    }
  }

  lemma CoveredNext(o: Office, before: Office, after: Office, init: seq<nat>, id: nat, policy: Policy)
    requires Covered(o, before, init, policy) && Grows(before, after)
    requires id in o.certificates && KeyOf(o.certificates[id], policy) in after.ledger
    ensures Covered(o, after, init + [id], policy)
  {
  }

  ghost predicate CoversEach(o: Office, treat: Treatment, ids: seq<nat>, first: nat, policy: Policy) {
    forall before: Office, k: nat ::
      k < |ids| && SameCertificates(o, before, ids) && first + k !in before.deliveries ==>
        CoversOne(o, before, treat(before, k).0, ids[k], first + k, ids, policy)
  }

  lemma TreatCoversAt(o: Office, ids: seq<nat>, first: nat, run: nat, policy: Policy, answers: nat -> bool,
                      others: Others, before: Office, k: nat)
    requires ForeignAll(others(k), first, |ids|) && k < |ids| && first + k !in before.deliveries &&
             SameCertificates(o, before, ids)
    requires forall c <- ids :: !EditsMeanwhile(others(k), c)
    ensures CoversOne(o, before, Treat(ids, first, run, policy, answers, others)(before, k).0, ids[k], first + k, ids,
                      policy)
  {
    assert ForeignMeanwhile(others(k), first + k);
    ScanOneCovers(o, before, first + k, ids[k], ids, run, policy, answers(k), others(k));
    TreatIs(ids, first, run, policy, answers, others, before, k);
  }

  lemma TreatCoversEach(o: Office, ids: seq<nat>, first: nat, run: nat, policy: Policy, answers: nat -> bool,
                        others: Others)
    requires ForeignOthers(others, first, |ids|) && Unedited(others, |ids|, ids)
    ensures CoversEach(o, Treat(ids, first, run, policy, answers, others), ids, first, policy)
  {
    var treat := Treat(ids, first, run, policy, answers, others);
    forall before: Office, k: nat | k < |ids| && SameCertificates(o, before, ids) && first + k !in before.deliveries
      ensures CoversOne(o, before, treat(before, k).0, ids[k], first + k, ids, policy)
    {
      assert ForeignAll(others(k), first, |ids|);
      TreatCoversAt(o, ids, first, run, policy, answers, others, before, k);
    }
  }

  lemma CoversStep(o: Office, before: Office, after: Office, ids: seq<nat>, n: nat, first: nat, policy: Policy,
                   counted: ScanResult, result: ScanResult)
    requires n < |ids| && Covered(o, before, ids[..n], policy) && Grows(before, after) && Grows(o, before)
    requires OneNotice(after, first + n, result) && CoversOne(o, before, after, ids[n], first + n, ids, policy)
    requires Covered(o, o, ids, policy) ==> counted == ScanResult(n, 0, 0, n)
    ensures Covered(o, after, ids[..n + 1], policy)
    ensures Covered(o, o, ids, policy) ==>
            Plus(Plus(counted, ScanResult(1, 0, 0, 0)), result) == ScanResult(n + 1, 0, 0, n + 1)
  {
    CoveredNext(o, before, after, ids[..n], ids[n], policy);
    assert ids[..n + 1] == ids[..n] + [ids[n]];
    if Covered(o, o, ids, policy) {
      assert ids[n] in ids && KeyOf(o.certificates[ids[n]], policy) in o.ledger;
    }
  }

  /** After a scan during which none of its certificates was edited, each has a communication; and if each had one
      at the start, the scan deduplicates all. */
  lemma {:induction false} CoversUpTo(o: Office, n: nat, treat: Treatment, ids: seq<nat>, first: nat, policy: Policy)
    requires n <= |ids| && AddsOne(o, treat, first, |ids|) && CoversEach(o, treat, ids, first, policy) &&
             Unused(o, first, 0, |ids|)
    requires forall id <- ids :: id in o.certificates
    ensures var (after, result) := ScanMany(o, n, treat);
            && Covered(o, after, ids[..n], policy) && SameCertificates(o, after, ids)
            && (Covered(o, o, ids, policy) ==> result == ScanResult(n, 0, 0, n))
    decreases n
  {
    if n > 0 {
      var k := n - 1;
      CoversUpTo(o, k, treat, ids, first, policy);
      CountsUpTo(o, k, treat, first, |ids|);
      var (before, counted) := ScanMany(o, k, treat);
      var (after, result) := treat(before, k);
      AddedHere(o, treat, first, |ids|, before, k);
      CoveredHere(o, treat, ids, first, policy, before, k);
      CoversStep(o, before, after, ids, k, first, policy, counted, result);
    }
  }

  lemma AddedHere(o: Office, treat: Treatment, first: nat, total: nat, before: Office, k: nat)
    requires AddsOne(o, treat, first, total) && k < total && Grows(o, before) && Unused(before, first, k, total)
    ensures OneNotice(treat(before, k).0, first + k, treat(before, k).1) && Grows(before, treat(before, k).0)
  {
    assert AddsAt(treat, before, k, first, total);
  }

  lemma CoveredHere(o: Office, treat: Treatment, ids: seq<nat>, first: nat, policy: Policy, before: Office, k: nat)
    requires CoversEach(o, treat, ids, first, policy) && k < |ids| && SameCertificates(o, before, ids) &&
             Unused(before, first, k, |ids|)
    ensures CoversOne(o, before, treat(before, k).0, ids[k], first + k, ids, policy)
  {
  }

  /** The second scan of the same certificates sends nothing: whatever other deliveries, retries and edits of other
      certificates happen during the first scan, between the two, and during the second, and whatever the provider
      would answer. */
  lemma InterleavedSecondScanSendsNothing(o: Office, ids: seq<nat>, policy: Policy,
                                          first: nat, run: nat, answers: nat -> bool, others: Others,
                                          between: seq<Step>,
                                          second: nat, laterRun: nat, laterAnswers: nat -> bool, laterOthers: Others)
    requires forall id <- ids :: id in o.certificates && !Edits(between, id)
    requires ForeignOthers(others, first, |ids|) && Unused(o, first, 0, |ids|) && Unedited(others, |ids|, ids)
    requires ForeignOthers(laterOthers, second, |ids|) && Unedited(laterOthers, |ids|, ids)
    requires Unused(Execution(ScanMany(o, |ids|, Treat(ids, first, run, policy, answers, others)).0, between), second,
                    0, |ids|)
    ensures var start := Execution(ScanMany(o, |ids|, Treat(ids, first, run, policy, answers, others)).0, between);
            var (after, result) :=
                ScanMany(start, |ids|, Treat(ids, second, laterRun, policy, laterAnswers, laterOthers));
            result == ScanResult(|ids|, 0, 0, |ids|) && Own(after, second, |ids|) == {}
  {
    var treat := Treat(ids, first, run, policy, answers, others);
    TreatAddsOne(o, ids, first, run, policy, answers, others);
    TreatCoversEach(o, ids, first, run, policy, answers, others);
    CoversUpTo(o, |ids|, treat, ids, first, policy);
    assert ids[..|ids|] == ids;
    var scanned := ScanMany(o, |ids|, treat).0;
    CoveredStays(o, scanned, between, ids, policy);
    var start := Execution(scanned, between);
    TreatAddsOne(start, ids, second, laterRun, policy, laterAnswers, laterOthers);
    TreatCoversEach(start, ids, second, laterRun, policy, laterAnswers, laterOthers);
    CoversUpTo(start, |ids|, Treat(ids, second, laterRun, policy, laterAnswers, laterOthers), ids, second, policy);
    CountsUpTo(start, |ids|, Treat(ids, second, laterRun, policy, laterAnswers, laterOthers), second, |ids|);
  }

  lemma CoveredStays(o: Office, scanned: Office, between: seq<Step>, ids: seq<nat>, policy: Policy)
    requires Covered(o, scanned, ids, policy) && SameCertificates(o, scanned, ids) &&
             forall id <- ids :: !Edits(between, id)
    ensures var start := Execution(scanned, between);
            Covered(start, start, ids, policy) && forall id <- ids :: id in start.certificates
  {
    ExecutionGrows(scanned, between);
    var start := Execution(scanned, between);
    forall id | id in ids
      ensures id in start.certificates && KeyOf(start.certificates[id], policy) in start.ledger
    {
      UneditedKeeps(scanned, between, id);
    }
  }
}
