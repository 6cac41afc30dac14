/** What each step of a cancel job leaves, told from the rows before and after. */
module CancellationOutcomes {
  import opened BillingCalendar
  import opened Entities
  import opened RowMeanings
  import opened Storage
  import opened Transactions
  import opened TransactionLaws
  import opened WebhookRules
  import opened DeliveryLaws
  import opened CancellationProtocol
  import opened CancellationLaws

  /** The request for subscription `k`, just opened. */
  predicate JustOpened(op: OperationRow, sub: SubscriptionRow, system: System, k: nat) {
    && op.key == CancelSubscriptionKey(system, k) && op.payload == CancelPayload(k) && op.provider == sub.gateway
    && op.status == InProgress && op.gatewayReference == "" && op.errorMessage == ""
  }

  /** The cancellation's operation is stored, and says `status`. */
  predicate StoredAs(s: Store, system: System, k: nat, status: OperationStatus) {
    exists o :: 0 <= o < |s.operations| && s.operations[o].key == CancelSubscriptionKey(system, k)
                && s.operations[o].status == status
  }

  /** The end asked for and the operation at hand, in one commit that does nothing
      else. */
  predicate EndRequested(s: Store, t: Store, r: Request, o: nat, op: OperationRow, now: DateTime)
    requires r.subscription < |s.subscriptions|
  {
    var k := r.subscription;
    && |t.subscriptions| == |s.subscriptions| && EndAsked(s.subscriptions[k], t.subscriptions[k], r.reason, r.job, now)
    && t.subscriptions == s.subscriptions[k := t.subscriptions[k]]
    && t == s.(subscriptions := t.subscriptions, operations := t.operations)
    && o < |t.operations| && t.operations[o] == op
    && (if o < |s.operations| then t.operations == s.operations && op.key == CancelSubscriptionKey(r.system, k)
        else t.operations == s.operations + [op] && JustOpened(op, s.subscriptions[k], r.system, k))
  }

  /** The answers of a start, and what it commits. */
  lemma StartOutcome(w: World, r: Request, now: DateTime, lands: bool)
    requires Safe(w) && Enabled(w, Start(r, now, lands))
    ensures var s, k, v := w.store, r.subscription, Do(w, Start(r, now, lands));
            && k in v.jobs && v.jobs[k].request == r && v.canceled == w.canceled && v.calls == w.calls
            && var place := v.jobs[k].place;
               if k >= |s.subscriptions| || s.subscriptions[k].fromSystem != r.system then
                 place == Answered(NotFound) && v.store == s
               else if s.subscriptions[k].status == Ended then place == Answered(CanceledNow) && v.store == s
               else if StoredAs(s, r.system, k, RequiresReconciliation) then place == Answered(Refused) && v.store == s
               else if !lands then place == Answered(Broken) && v.store == s
               else place.Begun? && EndRequested(s, v.store, r, place.o, place.op, now)
  {
    hide CallsSafe, NoticesSafe, JobsSafe, EndsSafe, OperationsSafe, Good;
    var s, k := w.store, r.subscription;
    if k < |s.subscriptions| && s.subscriptions[k].fromSystem == r.system && s.subscriptions[k].status != Ended {
      CompletedMeansEnded(w, k);
      UniqueOperation(w, r.system, k);
      EndsMean(s.subscriptions[k], None, r.reason, r.job, now);
      RewrittenSubscription(w, k, RequestEnd(s.subscriptions[k], r.reason, r.job, now).value);
    }
  }

  lemma UniqueOperation(w: World, system: System, k: nat)
    requires Safe(w)
    ensures var o := FindOperation(w.store.operations, CancelSubscriptionKey(system, k));
            forall status :: StoredAs(w.store, system, k, status) <==> o.Some? && w.store.operations[o.value].status == status
  {
    hide CallsSafe, NoticesSafe, JobsSafe, EndsSafe, OperationsSafe;
  }

  lemma RewrittenSubscription(w: World, k: nat, row: SubscriptionRow)
    requires Safe(w) && k < |w.store.subscriptions| && SameSubscription(w.store.subscriptions[k], row)
    ensures WriteSubscription(w.store.subscriptions, k, row) == Some(w.store.subscriptions[k := row])
  {
    hide CallsSafe, NoticesSafe, JobsSafe, EndsSafe, OperationsSafe;
  }

  /** A status response sends the job on; a refusal ends it without a trace, and an
      exception is to be recorded. */
  lemma VerifyOutcome(w: World, k: nat, status: StatusOutcome)
    requires Enabled(w, Verify(k, status))
    ensures var v, at := Do(w, Verify(k, status)), w.jobs[k].place;
            && v == w.(jobs := v.jobs) && k in v.jobs && v.jobs[k].request == w.jobs[k].request
            && var place := v.jobs[k].place;
               && (status == SaysCanceled ==> place == Finishing(at.o, at.op, true))
               && (status == SaysLive ==> place == Live(at.o, at.op))
               && (status == StatusRefused ==> place == Answered(Refused))
               && (status.StatusBroken? ==> place == Failing(at.o, at.op, status.message))
  {
  }

  /** The cancel call: what it did at the gateway, and the reference it leaves the
      job with, the subscription's own if it answered none. */
  lemma CallOutcomes(w: World, k: nat, call: CallOutcome)
    requires Enabled(w, CallCancel(k, call)) && w.jobs[k].request.subscription == k
    ensures var v, at, id := Do(w, CallCancel(k, call)), w.jobs[k].place, GatewayId(w, k);
            && v.store == w.store && k in v.jobs
            && (call.CallAccepted? ==>
                  && v.canceled == w.canceled + {id} && v.calls == w.calls + [id]
                  && (call.reference != "" ==> v.jobs[k].place == Called(at.o, at.op, call.reference))
                  && (call.reference == "" ==> v.jobs[k].place == Called(at.o, at.op, id)))
            && (call.CallRefused? ==> v.jobs[k].place == Answered(Refused))
            && (call.CallBroken? ==> v.jobs[k].place == Failing(at.o, at.op, call.message))
            && (!call.CallAccepted? && call.effective ==> v.canceled == w.canceled + {id} && v.calls == w.calls + [id])
            && (!call.CallAccepted? && !call.effective ==> v.canceled == w.canceled && v.calls == w.calls)
  {
  }

  /** The subscription ended and its operation completed, and nothing else. */
  predicate EndCommitted(s: Store, t: Store, k: nat, o: nat, reference: string, r: Request, now: DateTime)
    requires k < |s.subscriptions| && o < |s.operations|
  {
    && |t.subscriptions| == |s.subscriptions| && |t.operations| == |s.operations|
    && EndedAt(s.subscriptions[k], t.subscriptions[k], now, r.reason, r.job) && t.subscriptions[k].status == Ended
    && CompletedWith(s.operations[o], t.operations[o], reference)
    && t == s.(subscriptions := s.subscriptions[k := t.subscriptions[k]], operations := s.operations[o := t.operations[o]])
  }

  lemma FinishingCommits(w: World, k: nat, o: nat, reference: string, r: Request, now: DateTime)
    requires Safe(w) && k < |w.store.subscriptions| && o < |w.store.operations|
    ensures var done := DoFinishCancellation(w.store, k, o, reference, r.reason, r.job, now);
            && (done.Some? <==> reference != "")
            && (done.Some? ==> EndCommitted(w.store, done.value, k, o, reference, r, now))
  {
    hide CallsSafe, NoticesSafe, EndsSafe, OperationsSafe, JobsSafe, Good;
    EndsMean(w.store.subscriptions[k], None, r.reason, r.job, now);
    RewrittenSubscription(w, k, End(w.store.subscriptions[k], None, r.reason, r.job, now));
    OperationRulesMean(w.store.operations[o], reference, "");
  }

  lemma HoldsStored(w: World, k: nat)
    requires Safe(w) && k in w.jobs && !Over(w.jobs[k].place)
    ensures k < |w.store.subscriptions| && w.jobs[k].request.subscription == k && w.jobs[k].place.o < |w.store.operations|
    ensures w.jobs[k].place.Finishing? ==> w.jobs[k].place.guarded
  {
    assert JobSafe(w, k, w.jobs[k]);
    assert Holds(w, w.jobs[k].request, w.jobs[k].place.o, w.jobs[k].place.op);
  }

  /** Finishing: the subscription ended now, for the job's reason, and the operation
      completed with the reference, in one commit that does nothing else; or nothing,
      and an exception to recover from. */
  lemma FinishOutcome(w: World, k: nat, commit: CommitOutcome, now: DateTime)
    requires Safe(w) && Enabled(w, Finish(k, commit, now))
    ensures var s, v, at, r := w.store, Do(w, Finish(k, commit, now)), w.jobs[k].place, w.jobs[k].request;
            var reference := if at.Called? then at.reference else GatewayId(w, k);
            && k < |s.subscriptions| && at.o < |s.operations| && k in v.jobs
            && if commit.Lands? && reference != "" then
                 && v.jobs[k].place == Answered(CanceledNow)
                 && EndCommitted(s, v.store, k, at.o, reference, r, now)
               else
                 && v.store == s
                 && (at.Called? ==> v.jobs[k].place.SettingAside? && v.jobs[k].place.reference == at.reference
                                    && v.jobs[k].place.o == at.o)
                 && (!at.Called? && commit.Lands? ==> v.jobs[k].place == Answered(Refused))
                 && (!at.Called? && !commit.Lands? ==>
                       v.jobs[k].place.Failing? && v.jobs[k].place.o == at.o && v.jobs[k].place.message == commit.message)
  {
    hide Safe, DoFinishCancellation, EndCommitted;
    var Job(r, at) := w.jobs[k];
    HoldsStored(w, k);
    FinishingCommits(w, k, at.o, if at.Called? then at.reference else GatewayId(w, k), r, now);
  }

  /** Recovery writes the operation as the job holds it, failed or set aside, and
      nothing else. */
  lemma RecoverOutcome(w: World, k: nat, lands: bool)
    requires Safe(w) && Enabled(w, Recover(k, lands))
    ensures var s, v, at := w.store, Do(w, Recover(k, lands)), w.jobs[k].place;
            && at.o < |s.operations| && k in v.jobs
            && if !lands then v.store == s && v.jobs[k].place == Answered(Broken)
               else
                 && |v.store.operations| == |s.operations|
                 && v.store == s.(operations := s.operations[at.o := v.store.operations[at.o]])
                 && (at.Failing? ==> FailedWith(at.op, v.store.operations[at.o], at.message)
                                     && v.jobs[k].place == Answered(GatewayFailed))
                 && (at.SettingAside? ==> SetAsideWith(at.op, v.store.operations[at.o], at.reference, at.message)
                                          && v.jobs[k].place == Answered(SetAsideNow))
  {
    hide Safe;
    var at := w.jobs[k].place;
    HoldsStored(w, k);
    if at.Failing? { OperationRulesMean(at.op, "", at.message); } else { OperationRulesMean(at.op, at.reference, at.message); }
    StoredKeepsRequest(w, k);
  }

  lemma StoredKeepsRequest(w: World, k: nat)
    requires Safe(w) && k in w.jobs && !Over(w.jobs[k].place)
    ensures var at := w.jobs[k].place;
            && at.o < |w.store.operations| && w.store.operations[at.o].key == at.op.key
            && w.store.operations[at.o].payload == at.op.payload && w.store.operations[at.o].provider == at.op.provider
  {
    assert JobSafe(w, k, w.jobs[k]);
    assert Holds(w, w.jobs[k].request, w.jobs[k].place.o, w.jobs[k].place.op);
  }

  /** The worker tells the consumer once, and does nothing else. */
  lemma NotifyOutcome(w: World, k: nat, lands: bool)
    requires Safe(w) && Enabled(w, Notify(k, lands))
    ensures var v, n := Do(w, Notify(k, lands)), InactivationNotice(k);
            && NoticeFits(w.store, n) && k in v.jobs
            && (if lands then ToldOnce(w.store, n, v.store) && v.jobs[k].place == Notified
                else v.store == w.store && v.jobs[k].place == Answered(Broken))
  {
    hide CallsSafe, NoticesSafe, EndsSafe, OperationsSafe, Good;
    assert JobSafe(w, k, w.jobs[k]);
    RecordTellsOnce(w.store, InactivationNotice(k));
  }
}
