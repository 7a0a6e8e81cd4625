/** The SC-20 scan: which certificates it selects, what it sends, and what a second scan does. */
module Sc20Scan {
  import opened Options
  import opened Sc20Ledger

  datatype ScanResult = ScanResult(selected: nat, sent: nat, failed: nat, deduplicated: nat)

  const NOTHING := ScanResult(0, 0, 0, 0)

  function Plus(a: ScanResult, b: ScanResult): ScanResult {
    ScanResult(a.selected + b.selected, a.sent + b.sent, a.failed + b.failed, a.deduplicated + b.deduplicated)
  }

  /** Active certificates whose validity ends in the inclusive window. */
  predicate IsSelected(certificate: Certificate, baseDate: int, windowDays: nat) {
    certificate.active && baseDate <= certificate.validUntil <= baseDate + windowDays
  }

  function Selection(certificates: seq<Certificate>, baseDate: int, windowDays: nat): seq<Certificate> {
    if certificates == [] then []
    else
      Selection(certificates[..|certificates| - 1], baseDate, windowDays) +
      (if IsSelected(certificates[|certificates| - 1], baseDate, windowDays) then [certificates[|certificates| - 1]]
       else [])
  }

  /** The provider's answers, one for each certificate. */
  type Answers = Certificate -> bool

  datatype Desk = Desk(ledger: Ledger, sends: seq<NoticeKey>)

  /** One certificate: prepare, send, finalize. */
  function Notify(desk: Desk, certificate: Certificate, run: nat, policy: Policy, answers: Answers)
    : (Desk, ScanResult) {
    var key := KeyOf(certificate, policy);
    var prepared := PrepareNew(desk.ledger, key, run);
    if prepared.None? then (desk, ScanResult(0, 0, 0, 1))
    else
      var sequence := LastSequence(prepared.value, key);
      match Finalize(prepared.value, key, sequence, answers(certificate))
      case Recorded(ledger, status) =>
        (Desk(ledger, desk.sends + [key]), if status == Sent then ScanResult(0, 1, 0, 0) else ScanResult(0, 0, 1, 0))
      case Already(status) =>
        (Desk(prepared.value, desk.sends + [key]),
         if status == Sent then ScanResult(0, 1, 0, 0) else ScanResult(0, 0, 1, 0))
      case Unknown => (Desk(prepared.value, desk.sends + [key]), NOTHING)
  }

  /** A scan that nothing interrupts. */
  function ScanAll(desk: Desk, selection: seq<Certificate>, run: nat, policy: Policy, answers: Answers)
    : (Desk, ScanResult) {
    if selection == [] then (desk, NOTHING)
    else
      var (before, counted) := ScanAll(desk, selection[..|selection| - 1], run, policy, answers);
      var (after, result) := Notify(before, selection[|selection| - 1], run, policy, answers);
      (after, Plus(Plus(counted, ScanResult(1, 0, 0, 0)), result))
  }

  // ----- What one notice does -----

  lemma NotifyOk(desk: Desk, certificate: Certificate, run: nat, policy: Policy, answers: Answers)
    ensures var key := KeyOf(certificate, policy);
            var (after, result) := Notify(desk, certificate, run, policy, answers);
            if key in desk.ledger then after == desk && result == ScanResult(0, 0, 0, 1)
            else
              && after.sends == desk.sends + [key]
              && after.ledger ==
                   desk.ledger[key :=
                               Communication(if answers(certificate) then Sent else Failed,
                                             [Attempt(run, 1, if answers(certificate) then Sent else Failed)])]
              && result == (if answers(certificate) then ScanResult(0, 1, 0, 0) else ScanResult(0, 0, 1, 0))
  {
    var key := KeyOf(certificate, policy);
    if key !in desk.ledger {
      var first := Attempt(run, 1, Pending);
      assert [] + [first] == [first];
      assert AddAttempt(Communication(Pending, []), run) == Some(Communication(Pending, [first]));
      var status := if answers(certificate) then Sent else Failed;
      assert [first][0 := first.(status := status)] == [Attempt(run, 1, status)];
    }
  }

  function Keys(selection: seq<Certificate>, policy: Policy): set<NoticeKey> {
    set certificate <- selection :: KeyOf(certificate, policy)
  }

  /** A scan that completes counts every selected certificate once, as sent, failed or deduplicated; it leaves a
      communication for each, keeps those there were, and sends once to each certificate without one. */
  lemma {:induction false} ScanCounts(desk: Desk, selection: seq<Certificate>, run: nat, policy: Policy,
                                      answers: Answers)
    ensures var (after, result) := ScanAll(desk, selection, run, policy, answers);
            && result.selected == |selection| == result.sent + result.failed + result.deduplicated
            && |after.sends| == |desk.sends| + result.sent + result.failed
            && after.ledger.Keys == desk.ledger.Keys + Keys(selection, policy)
            && (forall key <- desk.ledger :: after.ledger[key] == desk.ledger[key])
            && desk.sends <= after.sends
    decreases |selection|
  {
    if selection != [] {
      var init, last := selection[..|selection| - 1], selection[|selection| - 1];
      ScanCounts(desk, init, run, policy, answers);
      var (before, _) := ScanAll(desk, init, run, policy, answers);
      NotifyOk(before, last, run, policy, answers);
      assert selection == init + [last];
      assert Keys(selection, policy) == Keys(init, policy) + {KeyOf(last, policy)};
    }
  }

  /** A scan of certificates that all have a communication sends nothing and deduplicates all. */
  lemma {:induction false} ScanOfKnown(desk: Desk, selection: seq<Certificate>, run: nat, policy: Policy,
                                       answers: Answers)
    requires forall certificate <- selection :: KeyOf(certificate, policy) in desk.ledger
    ensures ScanAll(desk, selection, run, policy, answers) == (desk, ScanResult(|selection|, 0, 0, |selection|))
    decreases |selection|
  {
    if selection != [] {
      var init, last := selection[..|selection| - 1], selection[|selection| - 1];
      assert forall certificate <- init :: certificate in selection;
      ScanOfKnown(desk, init, run, policy, answers);
      assert last in selection;
      NotifyOk(desk, last, run, policy, answers);
    }
  }

  lemma {:induction false} SelectionIs(certificates: seq<Certificate>, baseDate: int, windowDays: nat)
    ensures forall c <- certificates :: IsSelected(c, baseDate, windowDays) ==>
            c in Selection(certificates, baseDate, windowDays)
    ensures forall c <- Selection(certificates, baseDate, windowDays) ::
              c in certificates && IsSelected(c, baseDate, windowDays)
    decreases |certificates|
  {
    if certificates != [] {
      var init := certificates[..|certificates| - 1];
      SelectionIs(init, baseDate, windowDays);
      assert certificates == init + [certificates[|certificates| - 1]];
    }
  }

  /** The monthly scan is safe to repeat. After a scan, whatever other communications have been added since, a scan
      with the same base date and unchanged certificates sends nothing, whatever the provider would answer. */
  lemma SecondScanSendsNothing(desk: Desk, certificates: seq<Certificate>, baseDate: int, policy: Policy, first: nat,
                               answers: Answers,
                               later: Desk, second: nat, laterAnswers: Answers)
    requires var selection := Selection(certificates, baseDate, policy.windowDays);
             ScanAll(desk, selection, first, policy, answers).0.ledger.Keys <= later.ledger.Keys
    ensures var selection := Selection(certificates, baseDate, policy.windowDays);
            ScanAll(later, selection, second, policy, laterAnswers) ==
                (later, ScanResult(|selection|, 0, 0, |selection|))
  {
    var selection := Selection(certificates, baseDate, policy.windowDays);
    ScanCounts(desk, selection, first, policy, answers);
    forall c | c in selection
      ensures KeyOf(c, policy) in later.ledger
    {
      assert KeyOf(c, policy) in Keys(selection, policy);
    }
    ScanOfKnown(later, selection, second, policy, laterAnswers);
  }

  /** Moving the base date only reaches certificates that the first scan did not select. */
  lemma {:induction false} LaterScanSendsOnlyNew(desk: Desk, certificates: seq<Certificate>, baseDate: int,
                                                 policy: Policy, first: nat, answers: Answers,
                                                 laterBase: int, second: nat, laterAnswers: Answers, c: Certificate)
    requires c in certificates && IsSelected(c, baseDate, policy.windowDays)
    ensures var after := ScanAll(desk, Selection(certificates, baseDate, policy.windowDays), first, policy, answers).0;
            var later := ScanAll(after, Selection(certificates, laterBase, policy.windowDays), second, policy,
                                 laterAnswers).0;
            && KeyOf(c, policy) in after.ledger && KeyOf(c, policy) in later.ledger
            && later.ledger[KeyOf(c, policy)] == after.ledger[KeyOf(c, policy)]
  {
    SelectionIs(certificates, baseDate, policy.windowDays);
    var selection := Selection(certificates, baseDate, policy.windowDays);
    ScanCounts(desk, selection, first, policy, answers);
    assert KeyOf(c, policy) in Keys(selection, policy);
    var after := ScanAll(desk, selection, first, policy, answers).0;
    ScanCounts(after, Selection(certificates, laterBase, policy.windowDays), second, policy, laterAnswers);
  }

  lemma ScanNext(desk: Desk, selection: seq<Certificate>, i: nat, run: nat, policy: Policy, answers: Answers)
    requires i < |selection|
    ensures var (before, counted) := ScanAll(desk, selection[..i], run, policy, answers);
            var (after, result) := Notify(before, selection[i], run, policy, answers);
            && result.selected == 0
            && ScanAll(desk, selection[..i + 1], run, policy, answers) ==
               (after, ScanResult(counted.selected + 1, counted.sent + result.sent, counted.failed + result.failed,
                                  counted.deduplicated + result.deduplicated))
  {
    assert selection[..i + 1][..i] == selection[..i];
    NotifyOk(ScanAll(desk, selection[..i], run, policy, answers).0, selection[i], run, policy, answers);
  }

  // ----- The service -----

  class NotificationService {
    var ledger: Ledger
    var sends: seq<NoticeKey>

    function Value(): Desk
      reads this
    {
      Desk(ledger, sends)
    }

    constructor ()
      ensures Value() == Desk(map[], [])
    {
      ledger, sends := map[], [];
    }

    /** The next attempt of a communication, numbered after the highest so far. */
    method NextSequence(attempts: seq<Attempt>) returns (next: nat)
      ensures next == MaxSequence(attempts) + 1
    {
      var highest := 0;
      for i := 0 to |attempts|
        invariant highest == MaxSequence(attempts[..i])
      {
        assert attempts[..i + 1][..i] == attempts[..i];
        if attempts[i].sequence > highest {
          highest := attempts[i].sequence;
        }
      }
      assert attempts[..|attempts|] == attempts;
      next := highest + 1;
    }

    /** None when the communication is there already, or this run already has an attempt on it. */
    method PrepareNewDelivery(key: NoticeKey, run: nat) returns (sequence: Option<nat>)
      modifies this`ledger
      ensures ledger == PrepareNew(old(ledger), key, run).GetOr(old(ledger))
      ensures sequence == (if PrepareNew(old(ledger), key, run).Some? then Some(1) else None)
    {
      if key in ledger {
        return None;
      }
      var communication := Communication(Pending, []);
      var next := NextSequence(communication.attempts);
      ledger := ledger[key := communication.(attempts := communication.attempts + [Attempt(run, next, Pending)])];
      return Some(next);
    }

    method PrepareRetryDelivery(key: NoticeKey, run: nat, certificate: Certificate) returns (sequence: Option<nat>)
      modifies this`ledger
      ensures ledger == PrepareRetry(old(ledger), key, run, certificate).GetOr(old(ledger))
      ensures sequence.Some? <==> PrepareRetry(old(ledger), key, run, certificate).Some?
      ensures sequence.Some? ==> sequence.value == MaxSequence(old(ledger)[key].attempts) + 1
    {
      if key !in ledger || !certificate.active || certificate.validUntil != key.validUntil ||
          ledger[key].status != Failed {
        return None;
      }
      var communication := ledger[key].(status := Pending);
      if exists a <- communication.attempts :: a.run == run {
        return None;
      }
      var next := NextSequence(communication.attempts);
      ledger := ledger[key := communication.(attempts := communication.attempts + [Attempt(run, next, Pending)])];
      return Some(next);
    }

    /** The status that the worker counts, if any. */
    method FinalizeDelivery(key: NoticeKey, sequence: nat, delivered: bool) returns (status: Option<NoticeStatus>)
      modifies this`ledger
      ensures match Finalize(old(ledger), key, sequence, delivered)
              case Recorded(after, s) => ledger == after && status == Some(s)
              case Already(s) => ledger == old(ledger) && status == Some(s)
              case Unknown => ledger == old(ledger) && status == None
    {
      if key !in ledger || !(1 <= sequence <= |ledger[key].attempts|) {
        return None;
      }
      var communication := ledger[key];
      var attempt := communication.attempts[sequence - 1];
      if attempt.status == Sent || attempt.status == Failed {
        return Some(attempt.status);
      }
      var outcome := if delivered then Sent else Failed;
      ledger := ledger[key :=
                       Communication(outcome, communication.attempts[sequence - 1 := attempt.(status := outcome)])];
      return Some(outcome);
    }

    method NotifyCertificate(certificate: Certificate, run: nat, policy: Policy, answers: Answers)
        returns (result: ScanResult)
      modifies this
      ensures (Value(), result) == Notify(old(Value()), certificate, run, policy, answers)
    {
      var key := KeyOf(certificate, policy);
      NotifyOk(Value(), certificate, run, policy, answers);
      var sequence := PrepareNewDelivery(key, run);
      if sequence.None? {
        return ScanResult(0, 0, 0, 1);
      }
      sends := sends + [key];
      var status := FinalizeDelivery(key, sequence.value, answers(certificate));
      if status == Some(Sent) {
        return ScanResult(0, 1, 0, 0);
      }
      return ScanResult(0, 0, 1, 0);
    }

    /** The certificates in the window, in order. */
    method ExpiringBetween(certificates: seq<Certificate>, baseDate: int, windowDays: nat)
        returns (selection: seq<Certificate>)
      ensures selection == Selection(certificates, baseDate, windowDays)
    {
      selection := [];
      for i := 0 to |certificates|
        invariant selection == Selection(certificates[..i], baseDate, windowDays)
      {
        assert certificates[..i + 1][..i] == certificates[..i];
        if certificates[i].active && baseDate <= certificates[i].validUntil <= baseDate + windowDays {
          selection := selection + [certificates[i]];
        }
      }
      assert certificates[..|certificates|] == certificates;
    }

    /** The loop over the selected certificates, with its four counters. */
    method NotifyAll(selection: seq<Certificate>, run: nat, policy: Policy, answers: Answers)
        returns (result: ScanResult)
      modifies this
      ensures (Value(), result) == ScanAll(old(Value()), selection, run, policy, answers)
    {
      var selected: nat, sent: nat, failed: nat, deduplicated: nat := 0, 0, 0, 0;
      ghost var before := Value();
      for i := 0 to |selection|
        invariant Value() == ScanAll(before, selection[..i], run, policy, answers).0
        invariant ScanResult(selected, sent, failed, deduplicated) ==
                  ScanAll(before, selection[..i], run, policy, answers).1
      {
        ScanNext(before, selection, i, run, policy, answers);
        selected := selected + 1;
        var one := NotifyCertificate(selection[i], run, policy, answers);
        sent := sent + one.sent;
        failed := failed + one.failed;
        deduplicated := deduplicated + one.deduplicated;
      }
      assert selection[..|selection|] == selection;
      result := ScanResult(selected, sent, failed, deduplicated);
    }

    method ExecuteScan(certificates: seq<Certificate>, baseDate: int, run: nat, policy: Policy, answers: Answers)
        returns (result: ScanResult)
      modifies this
      ensures (Value(), result) ==
              ScanAll(old(Value()), Selection(certificates, baseDate, policy.windowDays), run, policy, answers)
      ensures result.selected == |Selection(certificates, baseDate, policy.windowDays)| ==
              result.sent + result.failed + result.deduplicated
      ensures |sends| == |old(sends)| + result.sent + result.failed
    {
      ScanCounts(Value(), Selection(certificates, baseDate, policy.windowDays), run, policy, answers);
      var selection := ExpiringBetween(certificates, baseDate, policy.windowDays);
      result := NotifyAll(selection, run, policy, answers);
    }
  }
}
