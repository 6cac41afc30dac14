/** `CancelSubscription` and its worker over the unit of work and a gateway,
    with everything else happening at its awaits. */
module CancellationService {
  import opened BillingCalendar
  import opened Entities
  import opened EntityObjects
  import opened Storage
  import opened WebhookRules
  import opened Transactions
  import opened TransactionLaws
  import opened CancellationProtocol
  import opened CancellationLaws

  lemma {:induction false} RunGrows(w: World, steps: seq<Step>, step: Step)
    requires Possible(w, steps) && Enabled(Steps(w, steps), step)
    ensures Possible(w, steps + [step]) && Steps(w, steps + [step]) == Do(Steps(w, steps), step)
    decreases |steps|
  {
    hide Do, Enabled;
    if steps == [] {
      assert [step][1..] == [];
    } else {
      assert (steps + [step])[1..] == steps[1..] + [step];
      RunGrows(Do(w, steps[0]), steps[1..], step);
    }
  }

  lemma OtherJobsStay(w: World, step: Step, k: nat)
    requires Enabled(w, step) && JobOf(step) != Some(k) && k in w.jobs
    ensures k in Do(w, step).jobs && Do(w, step).jobs[k] == w.jobs[k]
  {
    hide Apply, DoBeginCancellation, DoFinishCancellation, BuildDelivery, Owes, UpdateOperation;
  }

  /** Answers every call unless it `mayRaise`. */
  class Gateway {
    const mayRaise: bool
    var canceled: set<string>
    var calls: seq<string>

    /** A status response, or an exception; a response tells the truth. */
    method VerifyStatus(id: string) returns (status: StatusOutcome)
      ensures status == SaysCanceled ==> id in canceled
      ensures status == SaysLive ==> id !in canceled
      ensures status in {SaysCanceled, SaysLive} || mayRaise
    {
      status := *;
      if status.SaysCanceled? || status.SaysLive? || !mayRaise { status := if id in canceled then SaysCanceled else SaysLive; }
    }

    /** May take effect even when it raises. */
    method CancelSubscription(id: string) returns (call: CallOutcome)
      modifies this
      ensures if Effective(call)
              then canceled == old(canceled) + {id} && calls == old(calls) + [id]
              else canceled == old(canceled) && calls == old(calls)
      ensures call.CallAccepted? || mayRaise
    {
      call := *;
      if !call.CallAccepted? && !mayRaise { call := CallAccepted(""); }
      if Effective(call) {
        canceled := canceled + {id};
        calls := calls + [id];
      }
    }
  }

  /** The service; its process dies at no await unless it `mayDie`. */
  class CancelSubscription {
    const uow: UnitOfWork
    const gateway: Gateway
    const mayDie: bool
    var jobs: map<nat, Job>
    var owed: set<Notice>
    ghost var start: World
    ghost var steps: seq<Step>

    constructor (uow: UnitOfWork, gateway: Gateway, mayDie: bool)
      requires uow.working == uow.committed
      requires Safe(World(uow.committed, gateway.canceled, gateway.calls, map[], {}))
      ensures this.uow == uow && this.gateway == gateway && this.mayDie == mayDie && jobs == map[] && Traced()
    {
      this.uow, this.gateway, this.mayDie, jobs, owed := uow, gateway, mayDie, map[], {};
      start, steps := World(uow.committed, gateway.canceled, gateway.calls, map[], {}), [];
    }

    function Now(): World
      reads this, uow, gateway
    {
      World(uow.committed, gateway.canceled, gateway.calls, jobs, owed)
    }

    /** Nothing fails: no commit, no call, and the process lives. */
    predicate Calm() {
      !uow.mayFail && !gateway.mayRaise && !mayDie
    }

    /** The present is what the steps so far made of a safe start. */
    ghost predicate Traced()
      reads this, uow, gateway
    {
      && uow.working == uow.committed
      && Safe(start) && Possible(start, steps) && Steps(start, steps) == Now()
    }

    /** Records a step that this code has just taken. */
    ghost method Record(before: World, step: Step)
      requires uow.working == uow.committed && Safe(start) && Possible(start, steps) && Steps(start, steps) == before
      requires Enabled(before, step) && Do(before, step) == Now()
      modifies this`steps
      ensures Traced() && steps == old(steps) + [step]
    {
      RunGrows(start, steps, step);
      steps := steps + [step];
    }

    /** A step that others take. */
    method Happen(step: Step)
      requires Traced() && Enabled(Now(), step)
      modifies this`jobs, this`owed, this`steps, uow, gateway
      ensures Traced() && steps == old(steps) + [step] && Now() == Do(old(Now()), step)
    {
      ghost var before := Now();
      var after := Do(Now(), step);
      uow.committed, uow.working := after.store, after.store;
      gateway.canceled, gateway.calls := after.canceled, after.calls;
      jobs, owed := after.jobs, after.owed;
      Record(before, step);
    }

    /** An await: anything else happens, and the process may die. */
    method Await(k: nat) returns (alive: bool)
      requires Traced() && k in jobs && !jobs[k].place.Notified?
      modifies this`jobs, this`owed, this`steps, uow, gateway
      ensures Traced() && old(steps) <= steps
      ensures k in jobs && jobs[k] == if alive then old(jobs[k]) else Job(old(jobs[k]).request, Answered(Crashed))
      ensures k < |old(uow.committed).subscriptions| ==> GatewayId(Now(), k) == old(GatewayId(Now(), k))
      ensures k < |old(uow.committed).subscriptions| ==> k < |uow.committed.subscriptions|
      ensures alive || mayDie
    {
      var n: nat := *;
      while n > 0
        invariant Traced() && old(steps) <= steps && k in jobs && jobs[k] == old(jobs[k])
        invariant k < |old(uow.committed).subscriptions| ==> GatewayId(Now(), k) == old(GatewayId(Now(), k))
        invariant k < |old(uow.committed).subscriptions| ==> k < |uow.committed.subscriptions|
      {
        var step: Step := *;
        if JobOf(step) != Some(k) && Enabled(Now(), step) {
          RunIsSafe(start, steps);
          OtherJobsStay(Now(), step, k);
          if k < |old(uow.committed).subscriptions| { GatewayIdStays(Now(), step, k); }
          Happen(step);
        }
        n := n - 1;
      }
      alive := *;
      alive := alive || !mayDie;
      if !alive { Happen(Crash(k)); }
    }

    /** Up to the first commit. An answer, or the operation to carry on with. */
    method Begin(r: Request) returns (answer: Option<Answer>, operation: GatewayOperation?, id: string)
      requires Traced() && (r.subscription in jobs ==> Over(jobs[r.subscription].place))
      modifies this`jobs, this`steps, uow
      ensures Traced() && r.subscription in jobs
      ensures |steps| == |old(steps)| + 1 && old(steps) <= steps
      ensures steps[|old(steps)|].Start? && steps[|old(steps)|].request == r
      ensures answer.Some? ==> jobs[r.subscription] == Job(r, Answered(answer.value))
      ensures answer.None? ==>
                && operation != null && fresh(operation) && operation.id < |uow.committed.operations|
                && jobs[r.subscription] == Job(r, Begun(operation.id, operation.Row()))
                && r.subscription < |uow.committed.subscriptions| && id == GatewayId(Now(), r.subscription)
                && id == old(GatewayId(Now(), r.subscription))
      ensures answer.Some? ==> answer.value in {NotFound, CanceledNow, Refused} || uow.mayFail
    {
      hide Safe, Possible, Steps, Do, Enabled;
      ghost var before := Now();
      var now: DateTime := *;
      var k := r.subscription;
      operation, id := null, "";
      RunIsSafe(start, steps);
      MayStart(before, r, now);
      if k >= |uow.working.subscriptions| { answer := AnswerAtOnce(before, r, now, NotFound); return; }
      var sub := uow.GetSubscription(k);
      if sub.fromSystem != r.system { answer := AnswerAtOnce(before, r, now, NotFound); return; }
      if sub.status == Ended { answer := AnswerAtOnce(before, r, now, CanceledNow); return; }
      operation := uow.GetOperationByKey(CancelSubscriptionKey(r.system, k));
      if operation != null && operation.status == Completed {
        CompletedMeansEnded(before, k);
        assert false;
      }
      if operation != null && operation.status == RequiresReconciliation {
        answer := AnswerAtOnce(before, r, now, Refused);
        return;
      }
      answer, operation := Open(before, r, now, sub, operation);
      id := sub.gatewaySubscriptionId;
    }

    /** `execute` answers before its first commit. */
    method AnswerAtOnce(ghost before: World, r: Request, now: DateTime, a: Answer) returns (answer: Option<Answer>)
      requires Traced() && before == Now() && Enabled(before, Start(r, now, true))
      requires Do(before, Start(r, now, true)) == Moved(before, r.subscription, r, Answered(a))
      modifies this`jobs, this`steps
      ensures Traced() && answer == Some(a) && jobs == old(jobs)[r.subscription := Job(r, Answered(a))]
      ensures steps == old(steps) + [Start(r, now, true)]
    {
      jobs := jobs[r.subscription := Job(r, Answered(a))];
      Record(before, Start(r, now, true));
      answer := Some(a);
    }

    method RequestEndOf(sub: Subscription, k: nat, r: Request, now: DateTime)
      requires k < |uow.working.subscriptions| && SubscriptionKeys(uow.working.subscriptions)
      requires sub.id == Some(k) && sub.Row() == uow.working.subscriptions[k] && sub.status != Ended
      modifies uow`working, sub
      ensures uow.working == old(uow.working).(subscriptions := old(uow.working).subscriptions[k :=
                RequestEnd(old(uow.working).subscriptions[k], r.reason, r.job, now).value])
    {
      RewriteRow(uow.working.subscriptions, k, RequestEnd(sub.Row(), r.reason, r.job, now).value);
      if sub.status != CancellationPending {
        var asked := sub.RequestCancellation(r.reason, r.job, now);
        var saved, row := uow.SaveSubscription(sub);
      }
    }

    /** The operation is opened unless it was, the cancellation is requested
        unless it was, and both are committed. */
    method Open(ghost before: World, r: Request, now: DateTime, sub: Subscription, found: GatewayOperation?)
      returns (answer: Option<Answer>, operation: GatewayOperation)
      requires Traced() && before == Now() && Safe(before) && Opens(before, r) && Enabled(before, Start(r, now, true))
      requires sub.id == Some(r.subscription) && sub.Row() == before.store.subscriptions[r.subscription]
      requires var o := FindOperation(before.store.operations, CancelSubscriptionKey(r.system, r.subscription));
               if o.None? then found == null
               else found != null && found.id == o.value && found.Row() == before.store.operations[o.value]
      modifies this`jobs, this`steps, uow, sub
      ensures Traced() && r.subscription in jobs
      ensures found != null ==> operation == found
      ensures found == null ==> fresh(operation)
      ensures exists lands :: steps == old(steps) + [Start(r, now, lands)]
      ensures answer.Some? ==> jobs[r.subscription] == Job(r, Answered(answer.value))
      ensures answer.None? ==>
                && operation.id < |uow.committed.operations| && r.subscription < |uow.committed.subscriptions|
                && jobs[r.subscription] == Job(r, Begun(operation.id, operation.Row()))
                && sub.gatewaySubscriptionId == GatewayId(Now(), r.subscription)
      ensures answer.Some? ==> uow.mayFail
    {
      hide Safe, Possible, Steps, Do, Enabled, FindOperation, SubscriptionKeys;
      var k := r.subscription;
      StartBegins(before, r, now);
      if found == null { operation := uow.AddOperation(CancelOperation(sub.Row(), k, r.system)); } else { operation := found; }
      RequestEndOf(sub, k, r, now);
      assert uow.working == Requested(before.store, r, now);
      var landed := uow.TryCommit();
      if landed {
        jobs := jobs[k := Job(r, Begun(operation.id, operation.Row()))];
        answer := None;
      } else {
        uow.Rollback();
        jobs := jobs[k := Job(r, Answered(Broken))];
        answer := Some(Broken);
      }
      Record(before, Start(r, now, landed));
    }

    method VerifyStatus(r: Request, operation: GatewayOperation, id: string) returns (status: StatusOutcome)
      requires Traced() && id == GatewayId(Now(), r.subscription)
      requires r.subscription in jobs && jobs[r.subscription] == Job(r, Begun(operation.id, operation.Row()))
      modifies this`jobs, this`steps
      ensures Traced() && steps == old(steps) + [Verify(r.subscription, status)]
      ensures jobs == old(jobs)[r.subscription := Job(r, AfterStatus(operation.id, operation.Row(), status))]
      ensures status in {SaysCanceled, SaysLive} || gateway.mayRaise
    {
      ghost var before := Now();
      status := gateway.VerifyStatus(id);
      hide Safe, Possible, Steps;
      jobs := jobs[r.subscription := Job(r, AfterStatus(operation.id, operation.Row(), status))];
      Record(before, Verify(r.subscription, status));
    }

    method CallGateway(r: Request, operation: GatewayOperation, id: string) returns (call: CallOutcome, reference: string)
      requires Traced() && id == GatewayId(Now(), r.subscription)
      requires r.subscription in jobs && jobs[r.subscription] == Job(r, Live(operation.id, operation.Row()))
      modifies this`jobs, this`steps, gateway
      ensures Traced() && steps == old(steps) + [CallCancel(r.subscription, call)]
      ensures jobs == old(jobs)[r.subscription := Job(r, AfterCall(operation.id, operation.Row(), id, call))]
      ensures call.CallAccepted? ==> reference == if call.reference == "" then id else call.reference
      ensures call.CallAccepted? || gateway.mayRaise
    {
      ghost var before := Now();
      call := gateway.CancelSubscription(id);
      hide Safe, Possible, Steps;
      reference := if call.CallAccepted? then call.reference else "";
      if reference == "" { reference := id; }
      jobs := jobs[r.subscription := Job(r, AfterCall(operation.id, operation.Row(), id, call))];
      Record(before, CallCancel(r.subscription, call));
    }

    /** `_finalize_cancellation`, or the block after the cancel call; an
        exception is handed to the caller. */
    method Finalize(r: Request, operation: GatewayOperation, reference: string) returns (raised: Option<CommitOutcome>)
      requires Traced() && r.subscription in jobs && jobs[r.subscription].request == r
      requires var at := jobs[r.subscription].place;
               && ((at == Finishing(operation.id, operation.Row(), true) && reference == GatewayId(Now(), r.subscription))
                   || at == Called(operation.id, operation.Row(), reference))
      modifies this`jobs, this`steps, uow, operation
      ensures Traced() && |steps| == |old(steps)| + 1 && old(steps) <= steps
      ensures steps[|old(steps)|].Finish? && steps[|old(steps)|].k == r.subscription
      ensures raised == if steps[|old(steps)|].commit.Lands? && reference != "" then None else Some(steps[|old(steps)|].commit)
      ensures raised.None? ==> jobs == old(jobs)[r.subscription := Job(r, Answered(CanceledNow))]
      ensures raised.Some? ==>
                jobs == old(jobs)[r.subscription := Job(r,
                          AfterException(old(jobs[r.subscription].place), operation.Row(), raised.value))]
      ensures raised.Some? ==> reference == "" || uow.mayFail
    {
      hide Safe, Possible, Steps, Do, Enabled;
      ghost var before := Now();
      ghost var at := jobs[r.subscription].place;
      var now: DateTime := *;
      var k := r.subscription;
      RunIsSafe(start, steps);
      FinishActs(before, k, now);
      raised := Conclude(r, operation, reference, now);
      jobs := jobs[k := Job(r, if raised.None? then Answered(CanceledNow)
                               else AfterException(jobs[k].place, operation.Row(), raised.value))];
      Record(before, Finish(k, Or(raised, Lands), now));
    }

    /** The transaction of `Finalize`: all of it is committed, or none. */
    method Conclude(r: Request, operation: GatewayOperation, reference: string, now: DateTime)
      returns (raised: Option<CommitOutcome>)
      requires uow.working == uow.committed && r.subscription < |uow.working.subscriptions|
      requires SubscriptionKeys(uow.working.subscriptions) && operation.id < |uow.working.operations|
      modifies uow, operation
      ensures uow.working == uow.committed
      ensures raised.None? ==> reference != ""
                               && Some(uow.committed) == Concluded(old(uow.committed), r, operation.id, reference, now)
      ensures raised.Some? ==> uow.committed == old(uow.committed) && (raised.value.Lands? ==> reference == "")
                               && operation.Row() == InMemory(old(operation.Row()), reference, raised.value)
      ensures raised.Some? ==> reference == "" || uow.mayFail
    {
      var read: bool := *;
      if !read && uow.mayFail {
        var message: string := *;
        return Some(FailsUnmarked(message));
      }
      var sub := uow.GetSubscription(r.subscription);
      EndOf(sub, r.subscription, r, now);
      var marked := operation.MarkCompleted(reference);
      if !marked {
        uow.Rollback();
        return Some(Lands);
      }
      uow.SaveOperation(operation);
      var landed := uow.TryCommit();
      if landed { return None; }
      uow.Rollback();
      var message: string := *;
      raised := Some(FailsMarked(message));
    }

    method EndOf(sub: Subscription, k: nat, r: Request, now: DateTime)
      requires k < |uow.working.subscriptions| && SubscriptionKeys(uow.working.subscriptions)
      requires sub.id == Some(k) && sub.Row() == uow.working.subscriptions[k]
      modifies uow`working, sub
      ensures uow.working == old(uow.working).(subscriptions := old(uow.working).subscriptions[k :=
                End(old(uow.working).subscriptions[k], None, r.reason, r.job, now)])
    {
      RewriteRow(uow.working.subscriptions, k, End(sub.Row(), None, r.reason, r.job, now));
      if sub.status != Ended {
        sub.Cancel(None, r.reason, r.job, now);
        var saved, row := uow.SaveSubscription(sub);
      }
    }

    /** The recovery of a failed verification, call or finalization. */
    method RecordFailure(r: Request, operation: GatewayOperation, message: string) returns (answer: Answer)
      requires Traced() && r.subscription in jobs
      requires jobs[r.subscription] == Job(r, Failing(operation.id, operation.Row(), message))
      modifies this`jobs, this`owed, this`steps, uow, gateway, operation
      ensures Traced() && old(steps) <= steps
      ensures r.subscription in jobs && jobs[r.subscription] == Job(r, Answered(answer))
      ensures answer == GatewayFailed || (answer == Crashed && mayDie) || (answer == Broken && uow.mayFail)
      ensures answer == GatewayFailed ==> Records(uow.committed, operation.id, Fail(old(operation.Row()), message))
    {
      hide Safe, Possible, Steps, Do, Enabled;
      var k := r.subscription;
      var alive := Await(k);
      if !alive { return Crashed; }
      ghost var before := Now();
      RunIsSafe(start, steps);
      RecoverActs(before, k);
      uow.Rollback();
      operation.MarkFailed(message);
      uow.SaveOperation(operation);
      var landed := uow.TryCommit();
      if !landed { uow.Rollback(); }
      answer := if landed then GatewayFailed else Broken;
      jobs := jobs[k := Job(r, Answered(answer))];
      Record(before, Recover(k, landed));
    }

    /** The recovery after a cancel call that the gateway accepted. */
    method RecordSetAside(r: Request, operation: GatewayOperation, reference: string, message: string)
      returns (answer: Answer)
      requires Traced() && r.subscription in jobs
      requires jobs[r.subscription] == Job(r, SettingAside(operation.id, operation.Row(), reference, message))
      modifies this`jobs, this`owed, this`steps, uow, gateway, operation
      ensures Traced() && old(steps) <= steps
      ensures r.subscription in jobs && jobs[r.subscription] == Job(r, Answered(answer))
      ensures answer == SetAsideNow || (answer == Crashed && mayDie) || (answer == Broken && uow.mayFail)
      ensures answer == SetAsideNow ==>
                Records(uow.committed, operation.id, SetAside(old(operation.Row()), reference, message))
    {
      hide Safe, Possible, Steps, Do, Enabled;
      var k := r.subscription;
      var alive := Await(k);
      if !alive { return Crashed; }
      ghost var before := Now();
      RunIsSafe(start, steps);
      RecoverActs(before, k);
      uow.Rollback();
      operation.MarkRequiresReconciliation(reference, message);
      uow.SaveOperation(operation);
      var landed := uow.TryCommit();
      if !landed { uow.Rollback(); }
      answer := if landed then SetAsideNow else Broken;
      jobs := jobs[k := Job(r, Answered(answer))];
      Record(before, Recover(k, landed));
    }

    /** The gateway says canceled: `_finalize_cancellation`, guarded. */
    method FinishCanceled(r: Request, operation: GatewayOperation, id: string) returns (answer: Answer)
      requires Traced() && r.subscription in jobs && id == GatewayId(Now(), r.subscription)
      requires jobs[r.subscription] == Job(r, Finishing(operation.id, operation.Row(), true))
      modifies this`jobs, this`owed, this`steps, uow, gateway, operation
      ensures Traced() && old(steps) <= steps
      ensures r.subscription in jobs && jobs[r.subscription] == Job(r, Answered(answer))
      ensures Calm() && id != "" ==> answer == CanceledNow
    {
      hide Safe, Possible, Steps, Do, Enabled;
      var raised := Finalize(r, operation, id);
      if raised.None? { return CanceledNow; }
      if raised.value.Lands? { return Refused; }
      answer := RecordFailure(r, operation, raised.value.message);
    }

    /** The gateway says live: the cancel call and what follows. */
    method CancelLive(r: Request, operation: GatewayOperation, id: string) returns (answer: Answer)
      requires Traced() && r.subscription in jobs && id == GatewayId(Now(), r.subscription)
      requires jobs[r.subscription] == Job(r, Live(operation.id, operation.Row()))
      modifies this`jobs, this`owed, this`steps, uow, gateway, operation
      ensures Traced() && old(steps) <= steps
      ensures r.subscription in jobs && jobs[r.subscription] == Job(r, Answered(answer))
      ensures Calm() && id != "" ==> answer == CanceledNow
    {
      hide Safe, Possible, Steps, Do, Enabled;
      var call, reference := CallGateway(r, operation, id);
      match call {
        case CallRefused(_) => answer := Refused;
        case CallBroken(message, _) => answer := RecordFailure(r, operation, message);
        case CallAccepted(_) =>
          var alive := Await(r.subscription);
          if !alive { return Crashed; }
          var raised := Finalize(r, operation, reference);
          if raised.None? { return CanceledNow; }
          answer := RecordSetAside(r, operation, reference, MessageOf(raised.value));
      }
    }

    /** `execute`: a start, and then only steps the protocol allows this job,
        up to the answer; when nothing fails, either the start answers, or the
        subscription is canceled. */
    method Execute(r: Request) returns (answer: Answer)
      requires Traced() && (r.subscription in jobs ==> Over(jobs[r.subscription].place))
      modifies this`jobs, this`owed, this`steps, uow, gateway
      ensures Traced() && old(steps) < steps
      ensures steps[|old(steps)|].Start? && steps[|old(steps)|].request == r
      ensures r.subscription in jobs && jobs[r.subscription] == Job(r, Answered(answer))
      ensures Calm() && old(GatewayId(Now(), r.subscription)) != "" ==>
                answer == CanceledNow || (answer in {NotFound, Refused} && |steps| == |old(steps)| + 1)
    {
      hide Safe, Possible, Steps, Do, Enabled;
      var k := r.subscription;
      var begun, operation, id := Begin(r);
      if begun.Some? { return begun.value; }
      var alive := Await(k);
      if !alive { return Crashed; }
      var status := VerifyStatus(r, operation, id);
      if status.StatusRefused? { return Refused; }
      if status.StatusBroken? {
        answer := RecordFailure(r, operation, status.message);
        return;
      }
      alive := Await(k);
      if !alive { return Crashed; }
      if status.SaysCanceled? {
        answer := FinishCanceled(r, operation, id);
      } else {
        answer := CancelLive(r, operation, id);
      }
    }

    /** `cancel_subscription_worker`: once it succeeds, the consumer has been told. */
    method Work(r: Request) returns (answer: Answer)
      requires Traced() && (r.subscription in jobs ==> Over(jobs[r.subscription].place))
      modifies this`jobs, this`owed, this`steps, uow, gateway
      ensures Traced() && old(steps) < steps
      ensures r.subscription in jobs
      ensures jobs[r.subscription] == Job(r, if answer == CanceledNow then Notified else Answered(answer))
      ensures answer == CanceledNow ==> Told(uow.committed, r.subscription) && EndIsTold(uow.committed, r.subscription)
      ensures Calm() && old(GatewayId(Now(), r.subscription)) != "" ==> answer in {CanceledNow, NotFound, Refused}
    {
      hide Safe, Possible, Steps, Do, Enabled, Told, JobSafe, EndIsTold;
      var k := r.subscription;
      answer := Execute(r);
      if answer != CanceledNow { return; }
      var alive := Await(k);
      if !alive { return Crashed; }
      ghost var before := Now();
      RunIsSafe(start, steps);
      NotifyActs(before, k);
      var delivery := BuildDelivery(uow.working, InactivationNotice(k));
      var landed := true;
      if delivery.Draft? && !HasDelivery(uow.working.deliveries, delivery.row.key) {
        uow.working := uow.working.(deliveries := uow.working.deliveries + [delivery.row]);
        landed := uow.TryCommit();
        if !landed { uow.Rollback(); }
      }
      answer := if landed then CanceledNow else Broken;
      jobs := jobs[k := Job(r, if landed then Notified else Answered(Broken))];
      Record(before, Notify(k, landed));
      RunIsSafe(start, steps);
      if landed { NotifiedIsTold(Now(), k); }
    }
  }

  lemma RecoverActs(w: World, k: nat)
    requires Safe(w) && k in w.jobs && (w.jobs[k].place.Failing? || w.jobs[k].place.SettingAside?)
    ensures w.jobs[k].place.o < |w.store.operations|
    ensures forall lands :: Enabled(w, Recover(k, lands)) && Do(w, Recover(k, lands)) == DoRecover(w, k, lands)
  {
    assert JobSafe(w, k, w.jobs[k]);
  }

  lemma NotifyActs(w: World, k: nat)
    requires Safe(w) && k in w.jobs && w.jobs[k].place == Answered(CanceledNow)
    ensures k < |w.store.subscriptions|
    ensures forall lands :: Enabled(w, Notify(k, lands)) && Do(w, Notify(k, lands)) == DoNotify(w, k, lands)
  {
    assert JobSafe(w, k, w.jobs[k]);
  }

  /** A delivery tells, at the subscription's link, when it expires, unless nobody
      listens. */
  predicate EndIsTold(s: Store, k: nat) {
    && k < |s.subscriptions|
    && (s.subscriptions[k].webhookLink == "" || exists d :: 0 <= d < |s.deliveries| && TellsEnd(s, k, s.deliveries[d]))
  }

  lemma NotifiedIsTold(w: World, k: nat)
    requires Safe(w) && k in w.jobs && w.jobs[k].place.Notified?
    ensures Told(w.store, k) && EndIsTold(w.store, k)
  {
    assert JobSafe(w, k, w.jobs[k]);
    if w.store.subscriptions[k].webhookLink != "" {
      var d :| 0 <= d < |w.store.deliveries| && w.store.deliveries[d].key == SubscriptionNotice(NotifyInactivated, k, None);
      assert DeliverySafe(w.store, w.store.deliveries[d]);
    }
  }

  function MessageOf(raised: CommitOutcome): string {
    if raised.Lands? then "GatewayOperation precisa de gateway_reference ao concluir." else raised.message
  }

  function Concluded(s: Store, r: Request, o: nat, reference: string, now: DateTime): Option<Store>
    requires r.subscription < |s.subscriptions| && o < |s.operations|
  {
    var k := r.subscription;
    var ended := s.subscriptions[k := End(s.subscriptions[k], None, r.reason, r.job, now)];
    CompleteOperation(s.(subscriptions := ended), o, reference)
  }

  function AfterStatus(o: nat, op: OperationRow, status: StatusOutcome): Place {
    match status
    case SaysCanceled => Finishing(o, op, true)
    case SaysLive => Live(o, op)
    case StatusRefused => Answered(Refused)
    case StatusBroken(message) => Failing(o, op, message)
  }

  function AfterCall(o: nat, op: OperationRow, id: string, call: CallOutcome): Place {
    match call
    case CallAccepted(reference) => Called(o, op, if reference == "" then id else reference)
    case CallRefused(_) => Answered(Refused)
    case CallBroken(message, _) => Failing(o, op, message)
  }

  /** Where an exception of `Finalize` leads; `Lands` stands for the refusal of
      an empty reference. */
  function AfterException(at: Place, op: OperationRow, raised: CommitOutcome): Place
    requires at.Finishing? || at.Called?
  {
    if at.Called? then SettingAside(at.o, op, at.reference, MessageOf(raised))
    else if raised.Lands? then Answered(Refused)
    else Failing(at.o, op, MessageOf(raised))
  }

  /** What finishing needs, and what it does. */
  lemma FinishActs(w: World, k: nat, now: DateTime)
    requires Safe(w) && k in w.jobs && (w.jobs[k].place.Finishing? || w.jobs[k].place.Called?)
    ensures k < |w.store.subscriptions| && SubscriptionKeys(w.store.subscriptions)
    ensures forall commit :: Enabled(w, Finish(k, commit, now)) && Do(w, Finish(k, commit, now)) == DoFinish(w, k, commit, now)
    ensures var at, r := w.jobs[k].place, w.jobs[k].request;
            var reference := if at.Called? then at.reference else GatewayId(w, k);
            && at.o < |w.store.operations| && (at.Finishing? ==> at.guarded) && r.subscription == k
            && DoFinishCancellation(w.store, k, at.o, reference, r.reason, r.job, now)
               == Concluded(w.store, r, at.o, reference, now)
  {
    assert JobSafe(w, k, w.jobs[k]);
    SafeIsValid(w);
    var r := w.jobs[k].request;
    RewriteRow(w.store.subscriptions, k, End(w.store.subscriptions[k], None, r.reason, r.job, now));
  }

  /** The stored operation says what `op` says. */
  predicate Records(s: Store, o: nat, op: OperationRow) {
    && o < |s.operations|
    && s.operations[o].status == op.status && s.operations[o].gatewayReference == op.gatewayReference
    && s.operations[o].errorMessage == op.errorMessage
  }

  predicate Opens(w: World, r: Request) {
    var s, k := w.store, r.subscription;
    && k < |s.subscriptions| && s.subscriptions[k].fromSystem == r.system && s.subscriptions[k].status != Ended
    && var o := FindOperation(s.operations, CancelSubscriptionKey(r.system, k));
       o.Some? ==> s.operations[o.value].status !in {Completed, RequiresReconciliation}
  }

  /** The store with the cancellation asked for. */
  function Requested(s: Store, r: Request, now: DateTime): Store
    requires r.subscription < |s.subscriptions|
  {
    var k := r.subscription;
    var o := FindOperation(s.operations, CancelSubscriptionKey(r.system, k));
    s.(subscriptions := s.subscriptions[k := Or(RequestEnd(s.subscriptions[k], r.reason, r.job, now), s.subscriptions[k])],
       operations := if o.Some? then s.operations
                     else s.operations + [CancelOperation(s.subscriptions[k], k, r.system)])
  }

  lemma MayStart(w: World, r: Request, now: DateTime)
    requires r.subscription in w.jobs ==> Over(w.jobs[r.subscription].place)
    ensures forall lands :: Enabled(w, Start(r, now, lands))
    ensures var s, k := w.store, r.subscription;
            var done := Do(w, Start(r, now, true));
            && (k >= |s.subscriptions| || s.subscriptions[k].fromSystem != r.system ==>
                  done == Moved(w, k, r, Answered(NotFound)))
            && (k < |s.subscriptions| && s.subscriptions[k].fromSystem == r.system && s.subscriptions[k].status == Ended ==>
                  done == Moved(w, k, r, Answered(CanceledNow)))
            && (k < |s.subscriptions| && s.subscriptions[k].fromSystem == r.system && s.subscriptions[k].status != Ended
                && (var o := FindOperation(s.operations, CancelSubscriptionKey(r.system, k));
                    o.Some? && s.operations[o.value].status == RequiresReconciliation) ==>
                  done == Moved(w, k, r, Answered(Refused)))
  {
  }

  lemma StartBegins(w: World, r: Request, now: DateTime)
    requires Safe(w) && Enabled(w, Start(r, now, true)) && Opens(w, r)
    ensures var t, k := Requested(w.store, r, now), r.subscription;
            var o := Or(FindOperation(w.store.operations, CancelSubscriptionKey(r.system, k)), |w.store.operations|);
            && Enabled(w, Start(r, now, false)) && Do(w, Start(r, now, false)) == Moved(w, k, r, Answered(Broken))
            && o < |t.operations|
            && Do(w, Start(r, now, true)) == Moved(w.(store := t), k, r, Begun(o, t.operations[o]))
    ensures SubscriptionKeys(w.store.subscriptions)
  {
    SafeIsValid(w);
    hide Safe;
    var asked := RequestEnd(w.store.subscriptions[r.subscription], r.reason, r.job, now).value;
    RewriteRow(w.store.subscriptions, r.subscription, asked);
    assert DoBeginCancellation(w.store, r.subscription, r.system, r.reason, r.job, now) == Some(Requested(w.store, r, now));
  }

  lemma SafeIsValid(w: World)
    requires Safe(w)
    ensures Valid(w.store)
  {
  }

  lemma RewriteRow(subs: seq<SubscriptionRow>, k: nat, row: SubscriptionRow)
    requires SubscriptionKeys(subs) && k < |subs| && SameSubscription(subs[k], row)
    ensures WriteSubscription(subs, k, row) == Some(subs[k := row])
  {
  }
}
