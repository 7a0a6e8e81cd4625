/** Which certificates are noticed, what a notice is told apart by, and how a notice and its retries go. */
module Sc20Meaning {
  import opened Options
  import opened Sc20Ledger
  import opened Sc20Scan

  // ----- What makes a communication -----

  /** Two notices are the same communication exactly when certificate, validity, channel and policy are the same. */
  lemma KeysTellApart(c: Certificate, p: Policy, c': Certificate, p': Policy)
    ensures KeyOf(c, p) == KeyOf(c', p') <==>
            c.id == c'.id && c.validUntil == c'.validUntil && c.channel == c'.channel && p.key == p'.key
  {
  }

  // ----- What a scan selects -----

  predicate ExpiresWithin(c: Certificate, baseDate: int, days: nat) {
    c.active && c.validUntil >= baseDate && c.validUntil - baseDate <= days
  }

  /** The positions that were selected, in order: `chosen` maps the selection into the certificates. */
  ghost predicate Chooses(certificates: seq<Certificate>, selection: seq<Certificate>, chosen: seq<nat>, baseDate: int,
                          days: nat) {
    && |chosen| == |selection|
    && (forall i :: 0 <= i < |chosen| ==> chosen[i] < |certificates| && selection[i] == certificates[chosen[i]])
    && (forall i, j :: 0 <= i < j < |chosen| ==> chosen[i] < chosen[j])
    && (forall k :: 0 <= k < |certificates| ==> (ExpiresWithin(certificates[k], baseDate, days) <==> k in chosen))
  }

  /** The active certificates that expire in the window, both ends included, each once and in order. */
  lemma {:induction false} SelectionMeans(certificates: seq<Certificate>, baseDate: int, days: nat)
    ensures exists chosen :: Chooses(certificates, Selection(certificates, baseDate, days), chosen, baseDate, days)
    decreases |certificates|
  {
    var selection := Selection(certificates, baseDate, days);
    if certificates == [] {
      assert Chooses(certificates, selection, [], baseDate, days);
    } else {
      var n := |certificates| - 1;
      var init := certificates[..n];
      SelectionMeans(init, baseDate, days);
      var chosen :| Chooses(init, Selection(init, baseDate, days), chosen, baseDate, days);
      ChoosesNext(certificates, n, Selection(init, baseDate, days), chosen, baseDate, days);
      assert ExpiresWithin(certificates[n], baseDate, days) <==> IsSelected(certificates[n], baseDate, days);
      if ExpiresWithin(certificates[n], baseDate, days) {
        assert Chooses(certificates, selection, chosen + [n], baseDate, days);
      } else {
        assert selection == Selection(init, baseDate, days);
        assert Chooses(certificates, selection, chosen, baseDate, days);
      }
    }
  }

  lemma ChoosesNext(certificates: seq<Certificate>, n: nat, selection: seq<Certificate>, chosen: seq<nat>,
                    baseDate: int, days: nat)
    requires |certificates| == n + 1 && Chooses(certificates[..n], selection, chosen, baseDate, days)
    ensures if ExpiresWithin(certificates[n], baseDate, days)
            then Chooses(certificates, selection + [certificates[n]], chosen + [n], baseDate, days)
            else Chooses(certificates, selection, chosen, baseDate, days)
  {
    forall i | 0 <= i < |chosen|
      ensures chosen[i] < n && selection[i] == certificates[chosen[i]]
    {
      assert certificates[..n][chosen[i]] == certificates[chosen[i]];
    }
    forall k | 0 <= k < n
      ensures ExpiresWithin(certificates[k], baseDate, days) <==> k in chosen
    {
      assert certificates[..n][k] == certificates[k];
    }
    assert n !in chosen;
    if ExpiresWithin(certificates[n], baseDate, days) {
      var more := chosen + [n];
      forall k | 0 <= k < |certificates|
        ensures ExpiresWithin(certificates[k], baseDate, days) <==> k in more
      {
        assert k in more <==> k in chosen || k == n;
      }
    }
  }

  // ----- One notice -----

  /** A first notice is prepared exactly for a certificate without a communication, as attempt 1, pending. */
  lemma FirstNoticeMeans(ledger: Ledger, key: NoticeKey, run: nat)
    ensures PrepareNew(ledger, key, run) ==
            if key in ledger then None
            else Some(ledger[key := Communication(Pending, [Attempt(run, 1, Pending)])])
  {
    assert [] + [Attempt(run, 1, Pending)] == [Attempt(run, 1, Pending)];
    assert AddAttempt(Communication(Pending, []), run) == Some(Communication(Pending, [Attempt(run, 1, Pending)]));
  }

  /** A retry is prepared exactly when the communication has failed, its certificate is still active and expires on
      the same day, and the run has not tried it yet: as the next attempt, pending. */
  lemma RetryMeans(ledger: Ledger, key: NoticeKey, run: nat, certificate: Certificate)
    requires key in ledger && CommunicationOk(ledger[key])
    ensures var c := ledger[key];
            PrepareRetry(ledger, key, run, certificate) ==
              if c.status == Failed && certificate.active && certificate.validUntil == key.validUntil &&
                 (forall a <- c.attempts :: a.run != run)
              then Some(ledger[key := Communication(Pending, c.attempts + [Attempt(run, |c.attempts| + 1, Pending)])])
              else None
  {
    MaxIsLength(ledger[key].attempts);
  }

  lemma UnknownIsNotRetried(ledger: Ledger, key: NoticeKey, run: nat, certificate: Certificate)
    ensures key !in ledger ==> PrepareRetry(ledger, key, run, certificate) == None
  {
  }

  /** The provider's answer is recorded once, on the attempt and on the communication; a decided attempt keeps its
      status. */
  lemma AnswerMeans(ledger: Ledger, key: NoticeKey, sequence: nat, delivered: bool)
    requires key in ledger && 1 <= sequence <= |ledger[key].attempts|
    ensures var c := ledger[key];
            var attempt := c.attempts[sequence - 1];
            var status := if delivered then Sent else Failed;
            Finalize(ledger, key, sequence, delivered) ==
              if attempt.status == Pending
              then Recorded(ledger[key :=
                                   Communication(status,
                                                 c.attempts[sequence - 1 :=
                                                            Attempt(attempt.run, attempt.sequence, status)])], status)
              else Already(attempt.status)
  {
  }

  // ----- Whole notices -----

  lemma ExecutionThree(o: Office, a: Step, b: Step, c: Step)
    ensures Execution(o, [a, b, c]) == Next(Next(Next(o, a), b), c)
  {
    var steps := [a, b, c];
    assert steps[..2][..1] == steps[..1] && steps[..1][..0] == [];
    assert Execution(o, steps[..1]) == Next(o, a);
    assert Execution(o, steps[..2]) == Next(Next(o, a), b);
  }

  /** What is prepared is sent once, and the answer recorded. */
  lemma SentAndRecorded(o: Office, d: nat, key: NoticeKey, n: nat, run: nat, delivered: bool)
    requires d in o.deliveries && o.deliveries[d] == Delivery(key, n, run, Prepared) && key in o.ledger
    requires 1 <= n <= |o.ledger[key].attempts| && o.ledger[key].attempts[n - 1] == Attempt(run, n, Pending)
    ensures var status := if delivered then Sent else Failed;
            Next(Next(o, Send(d, delivered)), Conclude(d, true)) ==
              o.(sends := o.sends + [(key, n)],
                 ledger := o.ledger[key := Communication(status,
                                                         o.ledger[key].attempts[n - 1 := Attempt(run, n, status)])],
                 deliveries := o.deliveries[d := Delivery(key, n, run, Ended)])
  {
    AnswerMeans(o.ledger, key, n, delivered);
  }

  lemma NoticePrepared(o: Office, d: nat, run: nat, id: nat, policy: Policy)
    requires d !in o.deliveries && id in o.certificates && KeyOf(o.certificates[id], policy) !in o.ledger
    ensures var key := KeyOf(o.certificates[id], policy);
            Next(o, Step.Scan(d, run, id, policy, true)) ==
              o.(ledger := o.ledger[key := Communication(Pending, [Attempt(run, 1, Pending)])],
                 deliveries := o.deliveries[d := Delivery(key, 1, run, Prepared)])
  {
    FirstNoticeMeans(o.ledger, KeyOf(o.certificates[id], policy), run);
  }

  /** A certificate without a communication: its notice is prepared, sent once and recorded as the provider answered. */
  lemma NoticeLife(o: Office, d: nat, run: nat, id: nat, policy: Policy, delivered: bool)
    requires d !in o.deliveries && id in o.certificates && KeyOf(o.certificates[id], policy) !in o.ledger
    ensures var key := KeyOf(o.certificates[id], policy);
            var status := if delivered then Sent else Failed;
            var after := Execution(o, [Step.Scan(d, run, id, policy, true), Send(d, delivered), Conclude(d, true)]);
            && after.sends == o.sends + [(key, 1)]
            && after.ledger == o.ledger[key := Communication(status, [Attempt(run, 1, status)])]
            && after.deliveries == o.deliveries[d := Delivery(key, 1, run, Ended)]
            && after.certificates == o.certificates && after.retries == o.retries
  {
    var key := KeyOf(o.certificates[id], policy);
    ExecutionThree(o, Step.Scan(d, run, id, policy, true), Send(d, delivered), Conclude(d, true));
    NoticePrepared(o, d, run, id, policy);
    SentAndRecorded(Next(o, Step.Scan(d, run, id, policy, true)), d, key, 1, run, delivered);
    var status := if delivered then Sent else Failed;
    assert [Attempt(run, 1, Pending)][0 := Attempt(run, 1, status)] == [Attempt(run, 1, status)];
  }

  /** A failed communication: a retry adds one attempt, sends it once and records the answer. */
  lemma RetryLife(o: Office, d: nat, run: nat, key: NoticeKey, delivered: bool)
    requires d !in o.deliveries && key in o.ledger && CommunicationOk(o.ledger[key]) && o.ledger[key].status == Failed
    requires key.certificate in o.certificates && o.certificates[key.certificate].active
    requires o.certificates[key.certificate].validUntil == key.validUntil &&
             forall a <- o.ledger[key].attempts :: a.run != run
    ensures var n := |o.ledger[key].attempts| + 1;
            var status := if delivered then Sent else Failed;
            var after := Execution(o, [Retry(d, run, key, true), Send(d, delivered), Conclude(d, true)]);
            && after.sends == o.sends + [(key, n)]
            && after.ledger ==
                 o.ledger[key := Communication(status, o.ledger[key].attempts + [Attempt(run, n, status)])]
            && Retries(after, key) == Retries(o, key) + 1
  {
    var n := |o.ledger[key].attempts| + 1;
    ExecutionThree(o, Retry(d, run, key, true), Send(d, delivered), Conclude(d, true));
    RetryMeans(o.ledger, key, run, o.certificates[key.certificate]);
    var prepared := Next(o, Retry(d, run, key, true));
    assert prepared.deliveries[d] == Delivery(key, n, run, Prepared);
    SentAndRecorded(prepared, d, key, n, run, delivered);
    var status := if delivered then Sent else Failed;
    var attempts := o.ledger[key].attempts;
    assert (attempts + [Attempt(run, n, Pending)])[n - 1 := Attempt(run, n, status)] ==
        attempts + [Attempt(run, n, status)];
  }

  /** A worker that has lost its run prepares nothing and records nothing; nothing is sent before it is prepared, or
      twice; and an edit of a certificate changes nothing else. */
  lemma OutOfTurn(o: Office, d: nat, run: nat, id: nat, policy: Policy, key: NoticeKey, delivered: bool,
                  edited: Certificate)
    ensures Next(o, Step.Scan(d, run, id, policy, false)) == o && Next(o, Retry(d, run, key, false)) == o
    ensures Next(o, Conclude(d, false)).ledger == o.ledger && Next(o, Conclude(d, false)).sends == o.sends
    ensures d !in o.deliveries ==> Next(o, Send(d, delivered)) == o && Next(o, Conclude(d, true)) == o
    ensures d in o.deliveries && o.deliveries[d].phase != Prepared ==> Next(o, Send(d, delivered)) == o
    ensures d in o.deliveries && !o.deliveries[d].phase.Answered? ==> Next(o, Conclude(d, true)) == o
    ensures Next(o, EditCertificate(edited)) == o.(certificates := o.certificates[edited.id := edited])
  {
  }
}
