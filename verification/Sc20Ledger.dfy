/** The SC-20 ledger of notices: one communication per certificate, validity, channel and policy, with numbered
    attempts, and workers that may die between preparing, sending and finalizing. */
module Sc20Ledger {
  import opened Options

  datatype Channel = Email | Whatsapp | Unset

  datatype NoticeStatus = Pending | Sent | Failed

  datatype Certificate = Certificate(id: nat, active: bool, validUntil: int, channel: Channel)

  datatype Policy = Policy(key: string, windowDays: nat)

  datatype NoticeKey = NoticeKey(certificate: nat, validUntil: int, channel: Channel, policy: string)

  datatype Attempt = Attempt(run: nat, sequence: nat, status: NoticeStatus)

  datatype Communication = Communication(status: NoticeStatus, attempts: seq<Attempt>)

  type Ledger = map<NoticeKey, Communication>

  function KeyOf(certificate: Certificate, policy: Policy): NoticeKey {
    NoticeKey(certificate.id, certificate.validUntil, certificate.channel, policy.key)
  }

  function MaxSequence(attempts: seq<Attempt>): nat {
    if attempts == [] then 0
    else
      var rest, last := MaxSequence(attempts[..|attempts| - 1]), attempts[|attempts| - 1].sequence;
      if last > rest then last else rest
  }

  // ----- The three transactions -----

  /** A new pending attempt; none when this run already has one, which the database refuses. */
  function AddAttempt(c: Communication, run: nat): Option<Communication> {
    if exists a <- c.attempts :: a.run == run then None
    else Some(c.(attempts := c.attempts + [Attempt(run, MaxSequence(c.attempts) + 1, Pending)]))
  }

  /** A scan prepares only a communication that does not exist yet. */
  function PrepareNew(ledger: Ledger, key: NoticeKey, run: nat): Option<Ledger> {
    if key in ledger then None
    else
      var added := AddAttempt(Communication(Pending, []), run);
      if added.Some? then Some(ledger[key := added.value]) else None
  }

  /** An explicit retry takes up a failed communication of a certificate that is still the same. */
  function PrepareRetry(ledger: Ledger, key: NoticeKey, run: nat, certificate: Certificate): Option<Ledger> {
    if key !in ledger || !certificate.active || certificate.validUntil != key.validUntil ||
        ledger[key].status != Failed then None
    else
      var added := AddAttempt(ledger[key].(status := Pending), run);
      if added.Some? then Some(ledger[key := added.value]) else None
  }

  datatype Finalized = Unknown | Already(status: NoticeStatus) | Recorded(ledger: Ledger, status: NoticeStatus)

  function Finalize(ledger: Ledger, key: NoticeKey, sequence: nat, delivered: bool): Finalized {
    if key !in ledger || !(1 <= sequence <= |ledger[key].attempts|) then Unknown
    else
      var c := ledger[key];
      var attempt := c.attempts[sequence - 1];
      if attempt.status != Pending then Already(attempt.status)
      else
        var status := if delivered then Sent else Failed;
        Recorded(ledger[key := Communication(status, c.attempts[sequence - 1 := attempt.(status := status)])], status)
  }

  // ----- Workers -----

  datatype Phase = Prepared | Answered(delivered: bool) | Ended

  /** One prepared delivery in the hands of a worker. */
  datatype Delivery = Delivery(key: NoticeKey, sequence: nat, run: nat, phase: Phase)

  /** `sends` is what reached the provider, `retries` counts the explicit retries of each key. */
  datatype Office = Office(
    certificates: map<nat, Certificate>,
    ledger: Ledger,
    deliveries: map<nat, Delivery>,
    sends: seq<(NoticeKey, nat)>,
    retries: map<NoticeKey, nat>)

  datatype Step =
    | EditCertificate(edited: Certificate)
    | Scan(delivery: nat, run: nat, certificate: nat, policy: Policy, current: bool)
    | Retry(delivery: nat, run: nat, key: NoticeKey, current: bool)
    | Send(delivery: nat, delivered: bool)
    | Conclude(delivery: nat, current: bool)

  function LastSequence(ledger: Ledger, key: NoticeKey): nat {
    if key in ledger then |ledger[key].attempts| else 0
  }

  function Retries(o: Office, key: NoticeKey): nat {
    if key in o.retries then o.retries[key] else 0
  }

  /** `current` is whether the worker's delivery still owns its run; a worker that lost it stops. */
  function Next(o: Office, step: Step): Office {
    match step
    case EditCertificate(certificate) => o.(certificates := o.certificates[certificate.id := certificate])
    case Scan(d, run, id, policy, current) =>
      if d in o.deliveries || id !in o.certificates || !current then o
      else
        var key := KeyOf(o.certificates[id], policy);
        var prepared := PrepareNew(o.ledger, key, run);
        if prepared.None? then o
        else o.(ledger := prepared.value,
                deliveries := o.deliveries[d := Delivery(key, LastSequence(prepared.value, key), run, Prepared)])
    case Retry(d, run, key, current) =>
      if d in o.deliveries || key.certificate !in o.certificates || !current then o
      else
        var prepared := PrepareRetry(o.ledger, key, run, o.certificates[key.certificate]);
        if prepared.None? then o
        else
          o.(ledger := prepared.value,
             deliveries := o.deliveries[d := Delivery(key, LastSequence(prepared.value, key), run, Prepared)],
             retries := o.retries[key := Retries(o, key) + 1])
    case Send(d, delivered) =>
      if d !in o.deliveries || o.deliveries[d].phase != Prepared then o
      else
        var delivery := o.deliveries[d];
        o.(sends := o.sends + [(delivery.key, delivery.sequence)],
           deliveries := o.deliveries[d := delivery.(phase := Answered(delivered))])
    case Conclude(d, current) =>
      if d !in o.deliveries || !o.deliveries[d].phase.Answered? then o
      else
        var delivery := o.deliveries[d];
        var ended := o.(deliveries := o.deliveries[d := delivery.(phase := Ended)]);
        if !current then ended
        else
          match Finalize(o.ledger, delivery.key, delivery.sequence, delivery.phase.delivered)
          case Recorded(ledger, _) => ended.(ledger := ledger)
          case _ => ended
  }

  function Execution(o: Office, steps: seq<Step>): Office {
    if steps == [] then o else Next(Execution(o, steps[..|steps| - 1]), steps[|steps| - 1])
  }

  const EMPTY := Office(map[], map[], map[], [], map[])

  // ----- What the ledger keeps -----

  /** Attempts are numbered 1..n, belong to different runs, and all but the last have failed. */
  predicate CommunicationOk(c: Communication) {
    && c.attempts != []
    && c.status == c.attempts[|c.attempts| - 1].status
    && (forall i :: 0 <= i < |c.attempts| ==> c.attempts[i].sequence == i + 1)
    && (forall i :: 0 <= i < |c.attempts| - 1 ==> c.attempts[i].status == Failed)
    && (forall i, j :: 0 <= i < j < |c.attempts| ==> c.attempts[i].run != c.attempts[j].run)
  }

  /** A delivery that can still send or record owns the pending last attempt. */
  predicate DeliveryOk(o: Office, d: nat)
    requires d in o.deliveries
  {
    var delivery := o.deliveries[d];
    && delivery.key in o.ledger && 1 <= delivery.sequence <= |o.ledger[delivery.key].attempts|
    && o.ledger[delivery.key].attempts[delivery.sequence - 1].run == delivery.run
    && (delivery.phase != Ended ==>
          delivery.sequence == |o.ledger[delivery.key].attempts| && o.ledger[delivery.key].status == Pending)
    && (delivery.phase == Prepared ==> (delivery.key, delivery.sequence) !in o.sends)
  }

  predicate OneDelivery(o: Office) {
    forall d <- o.deliveries, e <- o.deliveries ::
      d != e && o.deliveries[d].key == o.deliveries[e].key ==> o.deliveries[d].sequence != o.deliveries[e].sequence
  }

  /** Nothing was sent twice, and only attempts on record were sent. */
  predicate SendsOk(o: Office) {
    && (forall i, j :: 0 <= i < j < |o.sends| ==> o.sends[i] != o.sends[j])
    && (forall i :: 0 <= i < |o.sends| ==> 1 <= o.sends[i].1 <= LastSequence(o.ledger, o.sends[i].0))
  }

  predicate CertificatesOk(o: Office) {
    forall id <- o.certificates :: o.certificates[id].id == id
  }

  predicate LedgerOk(o: Office) {
    && (forall key <- o.ledger :: CommunicationOk(o.ledger[key]) && |o.ledger[key].attempts| == 1 + Retries(o, key))
    && (forall key <- o.retries :: key in o.ledger)
  }

  predicate DeliveriesOk(o: Office) {
    forall d <- o.deliveries :: DeliveryOk(o, d)
  }

  predicate OfficeOk(o: Office) {
    CertificatesOk(o) && LedgerOk(o) && DeliveriesOk(o) && OneDelivery(o) && SendsOk(o)
  }

  lemma {:induction false} MaxIsLength(attempts: seq<Attempt>)
    requires forall i :: 0 <= i < |attempts| ==> attempts[i].sequence == i + 1
    ensures MaxSequence(attempts) == |attempts|
    decreases |attempts|
  {
    if attempts != [] {
      MaxIsLength(attempts[..|attempts| - 1]);
    }
  }

  lemma AddAttemptOk(c: Communication, run: nat)
    requires forall i :: 0 <= i < |c.attempts| ==> c.attempts[i].sequence == i + 1 && c.attempts[i].status == Failed
    requires forall i, j :: 0 <= i < j < |c.attempts| ==> c.attempts[i].run != c.attempts[j].run
    requires c.status == Pending
    ensures var r := AddAttempt(c, run);
            r.Some? ==>
              && CommunicationOk(r.value) && r.value.status == Pending && |r.value.attempts| == |c.attempts| + 1
              && r.value.attempts[..|c.attempts|] == c.attempts && r.value.attempts[|c.attempts|].run == run
  {
    MaxIsLength(c.attempts);
  }

  /** A prepared ledger: one communication has one more attempt, pending and owned by the run. */
  predicate HasNewAttempt(before: Ledger, after: Ledger, key: NoticeKey, run: nat) {
    && key in after && after == before[key := after[key]]
    && CommunicationOk(after[key]) && after[key].status == Pending
    && |after[key].attempts| == LastSequence(before, key) + 1
    && after[key].attempts[|after[key].attempts| - 1].run == run
    && (key in before ==>
        before[key].status == Failed && after[key].attempts[..|before[key].attempts|] == before[key].attempts)
  }

  lemma PrepareNewOk(ledger: Ledger, key: NoticeKey, run: nat)
    ensures var r := PrepareNew(ledger, key, run);
            (r.Some? <==> key !in ledger) && (r.Some? ==> HasNewAttempt(ledger, r.value, key, run))
  {
    AddAttemptOk(Communication(Pending, []), run);
  }

  lemma PrepareRetryOk(ledger: Ledger, key: NoticeKey, run: nat, certificate: Certificate)
    requires key in ledger ==> CommunicationOk(ledger[key])
    ensures var r := PrepareRetry(ledger, key, run, certificate);
            r.Some? ==> key in ledger && HasNewAttempt(ledger, r.value, key, run)
  {
    if key in ledger && ledger[key].status == Failed {
      AddAttemptOk(ledger[key].(status := Pending), run);
    }
  }

  // ----- Every step keeps it -----

  /** What a prepared delivery changes. */
  predicate PreparedStep(o: Office, after: Office, d: nat, key: NoticeKey, run: nat) {
    && d !in o.deliveries && HasNewAttempt(o.ledger, after.ledger, key, run)
    && after.deliveries == o.deliveries[d := Delivery(key, LastSequence(after.ledger, key), run, Prepared)]
    && after.certificates == o.certificates && after.sends == o.sends
    && after.retries == if key in o.ledger then o.retries[key := Retries(o, key) + 1] else o.retries
  }

  /** An earlier delivery of the same communication has ended, and its attempt is kept. */
  lemma KeepsAttempt(o: Office, after: Office, d: nat, key: NoticeKey, run: nat, e: nat)
    requires e in o.deliveries && DeliveryOk(o, e) && PreparedStep(o, after, d, key, run)
    ensures e in after.deliveries && DeliveryOk(after, e)
  {
    var delivery := o.deliveries[e];
    if delivery.key == key {
      assert o.ledger[key].attempts[delivery.sequence - 1] ==
          after.ledger[key].attempts[..|o.ledger[key].attempts|][delivery.sequence - 1];
    }
  }

  lemma NewDeliveryOk(o: Office, after: Office, d: nat, key: NoticeKey, run: nat)
    requires SendsOk(o) && PreparedStep(o, after, d, key, run)
    ensures DeliveryOk(after, d)
  {
    forall i | 0 <= i < |o.sends|
      ensures o.sends[i] != (key, LastSequence(after.ledger, key))
    {
      assert 1 <= o.sends[i].1 <= LastSequence(o.ledger, o.sends[i].0);
    }
  }

  lemma PreparedOnce(o: Office, after: Office, d: nat, key: NoticeKey, run: nat)
    requires OneDelivery(o) && DeliveriesOk(o) && PreparedStep(o, after, d, key, run)
    ensures OneDelivery(after)
  {
    forall e | e in o.deliveries && o.deliveries[e].key == key
      ensures o.deliveries[e].sequence < LastSequence(after.ledger, key)
    {
      assert DeliveryOk(o, e);
    }
  }

  lemma PreparedLedger(o: Office, after: Office, d: nat, key: NoticeKey, run: nat)
    requires LedgerOk(o) && PreparedStep(o, after, d, key, run)
    ensures LedgerOk(after)
  {
    if key in o.ledger {
      assert |o.ledger[key].attempts| == 1 + Retries(o, key);
    } else {
      assert key !in o.retries;
    }
  }

  lemma PreparedSends(o: Office, after: Office, d: nat, key: NoticeKey, run: nat)
    requires SendsOk(o) && PreparedStep(o, after, d, key, run)
    ensures SendsOk(after)
  {
  }

  lemma PreparedOk(o: Office, after: Office, d: nat, key: NoticeKey, run: nat)
    requires OfficeOk(o) && PreparedStep(o, after, d, key, run)
    ensures OfficeOk(after)
  {
    forall e | e in after.deliveries
      ensures DeliveryOk(after, e)
    {
      if e == d {
        NewDeliveryOk(o, after, d, key, run);
      } else {
        assert DeliveryOk(o, e);
        KeepsAttempt(o, after, d, key, run, e);
      }
    }
    PreparedOnce(o, after, d, key, run);
    PreparedLedger(o, after, d, key, run);
    PreparedSends(o, after, d, key, run);
  }

  lemma ScanEffect(o: Office, step: Step)
    requires step.Scan? && Next(o, step) != o
    ensures step.certificate in o.certificates
    ensures PreparedStep(o, Next(o, step), step.delivery, KeyOf(o.certificates[step.certificate], step.policy),
                         step.run)
  {
    PrepareNewOk(o.ledger, KeyOf(o.certificates[step.certificate], step.policy), step.run);
  }

  lemma RetryEffect(o: Office, step: Step)
    requires step.Retry? && Next(o, step) != o && LedgerOk(o)
    ensures PreparedStep(o, Next(o, step), step.delivery, step.key, step.run)
  {
    PrepareRetryOk(o.ledger, step.key, step.run, o.certificates[step.key.certificate]);
  }

  /** The step of one worker changes its own delivery only. */
  predicate OneMoves(o: Office, after: Office, d: nat) {
    && d in o.deliveries && d in after.deliveries && after.deliveries == o.deliveries[d := after.deliveries[d]]
    && after.deliveries[d].key == o.deliveries[d].key && after.deliveries[d].sequence == o.deliveries[d].sequence
    && after.deliveries[d].run == o.deliveries[d].run
    && after.certificates == o.certificates && after.retries == o.retries
  }

  lemma OneMovesOnce(o: Office, after: Office, d: nat)
    requires OneDelivery(o) && OneMoves(o, after, d)
    ensures OneDelivery(after)
  {
  }

  predicate SentStep(o: Office, after: Office, d: nat) {
    && OneMoves(o, after, d) && after.ledger == o.ledger
    && o.deliveries[d].phase == Prepared && after.deliveries[d].phase.Answered?
    && after.sends == o.sends + [(o.deliveries[d].key, o.deliveries[d].sequence)]
  }

  lemma SentDelivery(o: Office, after: Office, d: nat, e: nat)
    requires e in o.deliveries && DeliveryOk(o, e) && SentStep(o, after, d)
    requires e != d && o.deliveries[e].key == o.deliveries[d].key ==>
             o.deliveries[e].sequence != o.deliveries[d].sequence
    ensures e in after.deliveries && DeliveryOk(after, e)
  {
  }

  lemma SameLedger(o: Office, after: Office)
    requires LedgerOk(o) && after.ledger == o.ledger && after.retries == o.retries
    ensures LedgerOk(after)
  {
  }

  lemma SentOk(o: Office, after: Office, d: nat)
    requires OfficeOk(o) && SentStep(o, after, d)
    ensures OfficeOk(after)
  {
    assert DeliveryOk(o, d);
    OneMovesOnce(o, after, d);
    SentOnce(o, after, d);
    SameLedger(o, after);
    SentDeliveries(o, after, d);
  }

  lemma SentDeliveries(o: Office, after: Office, d: nat)
    requires DeliveriesOk(o) && OneDelivery(o) && SentStep(o, after, d)
    ensures DeliveriesOk(after)
  {
    forall e | e in after.deliveries
      ensures DeliveryOk(after, e)
    {
      assert DeliveryOk(o, e);
      SentDelivery(o, after, d, e);
    }
  }

  lemma SentOnce(o: Office, after: Office, d: nat)
    requires SendsOk(o) && d in o.deliveries && DeliveryOk(o, d) && o.deliveries[d].phase == Prepared
    requires after.ledger == o.ledger && after.sends == o.sends + [(o.deliveries[d].key, o.deliveries[d].sequence)]
    ensures SendsOk(after)
  {
  }

  /** The outcome of the pending last attempt. */
  lemma FinalizeOk(c: Communication, delivered: bool)
    requires CommunicationOk(c) && c.status == Pending
    ensures var n := |c.attempts|;
            var status := if delivered then Sent else Failed;
            var after := Communication(status, c.attempts[n - 1 := c.attempts[n - 1].(status := status)]);
            CommunicationOk(after) && |after.attempts| == n
  {
  }

  /** A recorded outcome: the communication keeps its attempts, and the last is no longer pending. */
  predicate Finished(o: Office, after: Office, d: nat) {
    && OneMoves(o, after, d) && after.sends == o.sends && after.deliveries[d].phase == Ended
    && (after.ledger == o.ledger
        || (&& o.deliveries[d].key in o.ledger && o.deliveries[d].key in after.ledger
            && after.ledger == o.ledger[o.deliveries[d].key := after.ledger[o.deliveries[d].key]]
            && CommunicationOk(after.ledger[o.deliveries[d].key])
            && SameRuns(o.ledger[o.deliveries[d].key].attempts, after.ledger[o.deliveries[d].key].attempts)))
  }

  predicate SameRuns(a: seq<Attempt>, b: seq<Attempt>) {
    |a| == |b| && forall i :: 0 <= i < |a| ==> b[i].run == a[i].run
  }

  lemma FinishedDelivery(o: Office, after: Office, d: nat, e: nat)
    requires e in o.deliveries && d in o.deliveries && DeliveryOk(o, e) && DeliveryOk(o, d) && Finished(o, after, d) &&
             o.deliveries[d].phase != Ended
    requires e != d && o.deliveries[e].key == o.deliveries[d].key ==>
             o.deliveries[e].sequence != o.deliveries[d].sequence
    ensures e in after.deliveries && DeliveryOk(after, e)
  {
  }

  lemma FinishedDeliveries(o: Office, after: Office, d: nat)
    requires DeliveriesOk(o) && OneDelivery(o) && Finished(o, after, d) && o.deliveries[d].phase != Ended
    ensures DeliveriesOk(after)
  {
    assert DeliveryOk(o, d);
    forall e | e in after.deliveries
      ensures DeliveryOk(after, e)
    {
      assert DeliveryOk(o, e);
      FinishedDelivery(o, after, d, e);
    }
  }

  lemma FinishedLedger(o: Office, after: Office, d: nat)
    requires LedgerOk(o) && Finished(o, after, d)
    ensures LedgerOk(after)
  {
    forall key | key in after.ledger
      ensures CommunicationOk(after.ledger[key]) && |after.ledger[key].attempts| == 1 + Retries(after, key)
    {
      assert CommunicationOk(o.ledger[key]) && |o.ledger[key].attempts| == 1 + Retries(o, key);
    }
  }

  lemma FinishedOk(o: Office, after: Office, d: nat)
    requires OfficeOk(o) && Finished(o, after, d) && o.deliveries[d].phase != Ended
    ensures OfficeOk(after)
  {
    OneMovesOnce(o, after, d);
    FinishedDeliveries(o, after, d);
    FinishedLedger(o, after, d);
    FinishedSends(o, after, d);
  }

  lemma FinishedSends(o: Office, after: Office, d: nat)
    requires SendsOk(o) && Finished(o, after, d)
    ensures SendsOk(after)
  {
  }

  lemma ConcludeEffect(o: Office, step: Step)
    requires step.Conclude? && step.delivery in o.deliveries && DeliveryOk(o, step.delivery) && LedgerOk(o)
    requires o.deliveries[step.delivery].phase.Answered?
    ensures Finished(o, Next(o, step), step.delivery)
  {
    var delivery := o.deliveries[step.delivery];
    FinalizeOk(o.ledger[delivery.key], delivery.phase.delivered);
  }

  lemma ConcludeOk(o: Office, step: Step)
    requires OfficeOk(o) && step.Conclude?
    ensures OfficeOk(Next(o, step))
  {
    if step.delivery in o.deliveries && o.deliveries[step.delivery].phase.Answered? {
      assert DeliveryOk(o, step.delivery);
      ConcludeEffect(o, step);
      FinishedOk(o, Next(o, step), step.delivery);
    }
  }

  lemma EditOk(o: Office, step: Step)
    requires OfficeOk(o) && step.EditCertificate?
    ensures OfficeOk(Next(o, step))
  {
    forall e | e in o.deliveries
      ensures DeliveryOk(Next(o, step), e)
    {
      assert DeliveryOk(o, e);
    }
  }

  lemma NextOk(o: Office, step: Step)
    requires OfficeOk(o)
    ensures OfficeOk(Next(o, step))
  {
    if Next(o, step) != o {
      if step.EditCertificate? {
        EditOk(o, step);
      } else if step.Scan? {
        ScanEffect(o, step);
        PreparedOk(o, Next(o, step), step.delivery, KeyOf(o.certificates[step.certificate], step.policy), step.run);
      } else if step.Retry? {
        RetryEffect(o, step);
        PreparedOk(o, Next(o, step), step.delivery, step.key, step.run);
      } else if step.Send? {
        SentOk(o, Next(o, step), step.delivery);
      } else {
        ConcludeOk(o, step);
      }
    }
  }

  lemma {:induction false} ExecutionOk(steps: seq<Step>)
    ensures OfficeOk(Execution(EMPTY, steps))
    decreases |steps|
  {
    if steps != [] {
      ExecutionOk(steps[..|steps| - 1]);
      NextOk(Execution(EMPTY, steps[..|steps| - 1]), steps[|steps| - 1]);
    }
  }

  // ----- At most once -----

  /** What was sent to one key. */
  function SentTo(sends: seq<(NoticeKey, nat)>, key: NoticeKey): seq<nat> {
    if sends == [] then []
    else SentTo(sends[..|sends| - 1], key) + (if sends[|sends| - 1].0 == key then [sends[|sends| - 1].1] else [])
  }

  predicate DistinctUpTo(s: seq<nat>, n: nat) {
    && (forall i, j :: 0 <= i < j < |s| ==> s[i] != s[j])
    && (forall x <- s :: 1 <= x <= n)
  }

  lemma {:induction false} SentToAre(sends: seq<(NoticeKey, nat)>, key: NoticeKey, n: nat)
    requires forall i, j :: 0 <= i < j < |sends| ==> sends[i] != sends[j]
    requires forall i :: 0 <= i < |sends| && sends[i].0 == key ==> 1 <= sends[i].1 <= n
    ensures DistinctUpTo(SentTo(sends, key), n)
    ensures forall s <- SentTo(sends, key) :: (key, s) in sends
    decreases |sends|
  {
    if sends != [] {
      var init, last := sends[..|sends| - 1], sends[|sends| - 1];
      var before := SentTo(init, key);
      SentToAre(init, key, n);
      forall s | s in before
        ensures 1 <= s <= n && (key, s) in sends && (key, s) != last
      {
        var i :| 0 <= i < |init| && init[i] == (key, s);
        assert sends[i] == (key, s);
      }
      if last.0 == key {
        assert (key, last.1) == last && last in sends;
        assert SentTo(sends, key) == before + [last.1];
      } else {
        assert SentTo(sends, key) == before;
      }
    }
  }

  lemma {:induction false} DistinctFit(s: seq<nat>, n: nat)
    requires DistinctUpTo(s, n)
    ensures |s| <= n
    decreases n
  {
    if s == [] {
      return;
    }
    assert s[0] in s;
    if n in s {
      var k :| 0 <= k < |s| && s[k] == n;
      var rest := s[..k] + s[k + 1..];
      forall x | x in rest
        ensures 1 <= x <= n - 1
      {
        assert x in s;
        var i :| 0 <= i < |rest| && rest[i] == x;
        assert x == s[if i < k then i else i + 1];
      }
      DistinctFit(rest, n - 1);
    } else {
      DistinctFit(s, n - 1);
    }
  }

  lemma SentToFits(sends: seq<(NoticeKey, nat)>, key: NoticeKey, n: nat)
    requires forall i, j :: 0 <= i < j < |sends| ==> sends[i] != sends[j]
    requires forall i :: 0 <= i < |sends| && sends[i].0 == key ==> 1 <= sends[i].1 <= n
    ensures |SentTo(sends, key)| <= n
  {
    SentToAre(sends, key, n);
    DistinctFit(SentTo(sends, key), n);
  }

  /** At-most-once notices, over every interleaving of scans, retries, sends, crashes and certificate edits: attempts
      are numbered 1..n without gaps, all but the last have failed, the communication has the status of the last; no
      attempt is sent twice, and the sends of a communication number at most one more than its explicit retries. */
  lemma AtMostOnceNotices(steps: seq<Step>, key: NoticeKey)
    ensures var o := Execution(EMPTY, steps);
            && (key in o.ledger ==> CommunicationOk(o.ledger[key]) && |o.ledger[key].attempts| == 1 + Retries(o, key))
            && (key !in o.ledger ==> SentTo(o.sends, key) == [])
            && (forall i, j :: 0 <= i < j < |o.sends| ==> o.sends[i] != o.sends[j])
            && |SentTo(o.sends, key)| <= LastSequence(o.ledger, key) <= 1 + Retries(o, key)
  {
    ExecutionOk(steps);
    SendsAreFew(Execution(EMPTY, steps), key);
  }

  lemma SentIsOnRecord(o: Office, key: NoticeKey)
    requires SendsOk(o)
    ensures forall i :: 0 <= i < |o.sends| && o.sends[i].0 == key ==> 1 <= o.sends[i].1 <= LastSequence(o.ledger, key)
    ensures forall i, j :: 0 <= i < j < |o.sends| ==> o.sends[i] != o.sends[j]
  {
  }

  lemma SendsAreFew(o: Office, key: NoticeKey)
    requires LedgerOk(o) && SendsOk(o)
    ensures (key in o.ledger ==> CommunicationOk(o.ledger[key]) && |o.ledger[key].attempts| == 1 + Retries(o, key))
    ensures key !in o.ledger ==> SentTo(o.sends, key) == []
    ensures |SentTo(o.sends, key)| <= LastSequence(o.ledger, key) <= 1 + Retries(o, key)
  {
    SentIsOnRecord(o, key);
    SentToFits(o.sends, key, LastSequence(o.ledger, key));
  }

  /** No send follows a sent attempt or one that never got an answer: what is sent is the newest attempt, and all
      attempts before it have failed. */
  lemma SendFollowsFailuresOnly(steps: seq<Step>, d: nat, delivered: bool)
    ensures var o := Execution(EMPTY, steps);
            Next(o, Send(d, delivered)) != o ==> d in o.deliveries && SendsNewest(o, o.deliveries[d])
  {
    ExecutionOk(steps);
    if Next(Execution(EMPTY, steps), Send(d, delivered)) != Execution(EMPTY, steps) {
      SendFollows(Execution(EMPTY, steps), d, delivered);
    }
  }

  lemma SendFollows(o: Office, d: nat, delivered: bool)
    requires LedgerOk(o) && DeliveriesOk(o) && Next(o, Send(d, delivered)) != o
    ensures d in o.deliveries && SendsNewest(o, o.deliveries[d])
  {
    assert DeliveryOk(o, d);
    assert CommunicationOk(o.ledger[o.deliveries[d].key]);
  }

  predicate SendsNewest(o: Office, delivery: Delivery) {
    && delivery.key in o.ledger && delivery.sequence == |o.ledger[delivery.key].attempts| >= 1
    && o.ledger[delivery.key].attempts[delivery.sequence - 1].status == Pending
    && (forall i :: 0 <= i < delivery.sequence - 1 ==> o.ledger[delivery.key].attempts[i].status == Failed)
    && (delivery.key, delivery.sequence) !in o.sends
  }

  // ----- What stays -----

  /** A communication whose last attempt was sent, or is still unresolved after its worker has ended, is never
      sent again: no step adds an attempt to it. */
  predicate Settled(o: Office, key: NoticeKey) {
    && key in o.ledger && o.ledger[key].status != Failed
    && forall d <- o.deliveries :: o.deliveries[d].key == key ==> o.deliveries[d].phase == Ended
  }

  /** What a settled communication keeps. */
  predicate Rests(o: Office, after: Office, key: NoticeKey) {
    Settled(after, key) && key in o.ledger && after.ledger[key] == o.ledger[key] &&
        SentTo(after.sends, key) == SentTo(o.sends, key)
  }

  lemma PreparedRests(o: Office, after: Office, d: nat, other: NoticeKey, run: nat, key: NoticeKey)
    requires Settled(o, key) && PreparedStep(o, after, d, other, run)
    ensures Rests(o, after, key)
  {
  }

  lemma SendRests(o: Office, step: Step, key: NoticeKey)
    requires Settled(o, key) && step.Send? && Next(o, step) != o
    ensures Rests(o, Next(o, step), key)
  {
    assert Next(o, step).sends[..|o.sends|] == o.sends;
  }

  lemma ConcludeRests(o: Office, after: Office, d: nat, key: NoticeKey)
    requires Settled(o, key) && d in o.deliveries && o.deliveries[d].phase != Ended && Finished(o, after, d)
    ensures Rests(o, after, key)
  {
    assert o.deliveries[d].key != key;
  }

  lemma SettledStep(o: Office, step: Step, key: NoticeKey)
    requires OfficeOk(o) && Settled(o, key)
    ensures OfficeOk(Next(o, step)) && Rests(o, Next(o, step), key)
  {
    NextOk(o, step);
    if Next(o, step) != o {
      if step.Scan? {
        ScanEffect(o, step);
        PreparedRests(o, Next(o, step), step.delivery, KeyOf(o.certificates[step.certificate], step.policy), step.run,
                      key);
      } else if step.Retry? {
        RetryEffect(o, step);
        PreparedRests(o, Next(o, step), step.delivery, step.key, step.run, key);
      } else if step.Send? {
        SendRests(o, step, key);
      } else if step.Conclude? {
        assert DeliveryOk(o, step.delivery);
        ConcludeEffect(o, step);
        ConcludeRests(o, Next(o, step), step.delivery, key);
      }
    }
  }

  lemma {:induction false} SettledForGood(o: Office, steps: seq<Step>, key: NoticeKey)
    requires OfficeOk(o) && Settled(o, key)
    ensures var after := Execution(o, steps);
            OfficeOk(after) && Rests(o, after, key)
    decreases |steps|
  {
    if steps != [] {
      SettledForGood(o, steps[..|steps| - 1], key);
      SettledStep(Execution(o, steps[..|steps| - 1]), steps[|steps| - 1], key);
    }
  }
}
