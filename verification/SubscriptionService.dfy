/** `CreateSubscription` over the unit of work and a gateway, with everything
    else happening at its awaits. */
module SubscriptionService {
  import opened BillingCalendar
  import opened Entities
  import opened EntityObjects
  import opened Storage
  import opened Transactions
  import opened TransactionLaws
  import opened OperationLaws
  import opened SubscriptionProtocol
  import opened SubscriptionLaws
  import opened SubscriptionOutcomes

  lemma {:induction false} RunGrows(w: World, steps: seq<Step>, step: Step)
    requires Possible(w, steps) && Enabled(Steps(w, steps), step)
    ensures Possible(w, steps + [step]) && Steps(w, steps + [step]) == Do(Steps(w, steps), step)
    decreases |steps|
  {
    hide Do, Enabled;
    if steps == [] {
      assert [step][1..] == [];
    } else {
      assert (steps + [step])[1..] == steps[1..] + [step];
      RunGrows(Do(w, steps[0]), steps[1..], step);
    }
  }

  predicate Acts(step: Step, ref: SubscriptionRef) {
    match step
    case Foreign(_) => false
    case Start(order, _) => order.ref == ref
    case CallCreate(r, _) => r == ref
    case Conclude(r, _, _, _, _) => r == ref
    case Recover(r, _) => r == ref
    case Crash(r) => r == ref
  }

  lemma OthersStay(w: World, step: Step, ref: SubscriptionRef)
    requires Sound(w) && Enabled(w, step) && !Acts(step, ref)
    ensures ref in Do(w, step).jobs <==> ref in w.jobs
    ensures ref in w.jobs ==> Do(w, step).jobs[ref] == w.jobs[ref]
  {
    hide Apply, Bound, Good, IdsPlaced, OneLive, OperationsFor, FindOperation;
    if !step.Foreign? && !step.Start? { assert JobSound(w, step.ref, w.jobs[step.ref]); }
  }

  /** Answers every call unless it `mayRaise`. */
  class Gateway {
    const mayRaise: bool

    constructor (mayRaise: bool)
      ensures this.mayRaise == mayRaise
    {
      this.mayRaise := mayRaise;
    }

    /** An id never seen before, or an exception. */
    method CreateSubscription(order: Order, world: World) returns (outcome: CreateOutcome)
      ensures outcome.Created? ==> NewId(world, outcome.id)
    {
      outcome := *;
      if outcome.Created? && !NewId(world, outcome.id) { outcome := NotCreated(""); }
    }

    /** The payments of a subscription, or an exception. */
    method GetSubscriptionPayments(id: string) returns (payments: Option<seq<GatewayPayment>>)
      ensures payments.Some? || mayRaise
    {
      payments := *;
      if !payments.Some? && !mayRaise {
        var listed: seq<GatewayPayment> := *;
        payments := Some(listed);
      }
    }
  }

  /** The service; its process dies at no await unless it `mayDie`. */
  class CreateSubscription {
    const uow: UnitOfWork
    const gateway: Gateway
    const mayDie: bool
    var jobs: map<SubscriptionRef, Job>
    var created: map<string, SubscriptionRef>
    var dropped: set<string>
    ghost var start: Store
    ghost var steps: seq<Step>

    constructor (uow: UnitOfWork, gateway: Gateway, mayDie: bool)
      requires uow.working == uow.committed && Good(uow.committed)
      requires forall o :: 0 <= o < |uow.committed.operations| ==> WellFormed(uow.committed.operations[o])
      ensures this.uow == uow && this.gateway == gateway && this.mayDie == mayDie
      ensures jobs == map[] && Traced() && Sound(Now())
    {
      StartIsSound(uow.committed);
      this.uow, this.gateway, this.mayDie := uow, gateway, mayDie;
      jobs, created, dropped, start, steps := map[], map[], {}, uow.committed, [];
    }

    /** Nothing fails: no commit, no call, and the process lives. */
    predicate Calm() {
      !uow.mayFail && !gateway.mayRaise && !mayDie
    }

    function Now(): World
      reads this, uow
    {
      World(uow.committed, jobs, created, dropped)
    }

    /** The present is what the steps so far made of the store at the start. */
    ghost predicate Traced()
      reads this, uow
    {
      && uow.working == uow.committed && Possible(World(start, map[], map[], {}), steps)
      && Steps(World(start, map[], map[], {}), steps) == Now()
    }

    ghost predicate WasTraced(before: World)
      reads this, uow
    {
      && uow.working == uow.committed && Possible(World(start, map[], map[], {}), steps)
      && Steps(World(start, map[], map[], {}), steps) == before
    }

    /** Records a step that this code has just taken. */
    ghost method Record(before: World, step: Step)
      requires WasTraced(before) && Sound(before) && Enabled(before, step) && Do(before, step) == Now()
      modifies this`steps
      ensures Traced() && Sound(Now()) && steps == old(steps) + [step]
    {
      hide Sound, Do, Enabled;
      RunGrows(World(start, map[], map[], {}), steps, step);
      StepKeeps(before, step);
      steps := steps + [step];
    }

    /** An await: anything else happens, and the process may die. */
    method Await(ref: SubscriptionRef) returns (alive: bool)
      requires Traced() && Sound(Now()) && !Idle(Now(), ref)
      modifies this`jobs, this`created, this`dropped, this`steps, uow
      ensures Traced() && Sound(Now()) && old(steps) <= steps
      ensures ref in jobs && jobs[ref] == if alive then old(jobs[ref]) else Job(old(jobs[ref]).order, Answered(Crashed))
      ensures alive || mayDie
    {
      hide Sound, Do, Enabled, Possible, Steps;
      var n: nat := *;
      while n > 0
        invariant Traced() && Sound(Now()) && old(steps) <= steps && ref in jobs && jobs[ref] == old(jobs[ref])
      {
        var step: Step := *;
        if !Acts(step, ref) && Enabled(Now(), step) { Happen(step, ref); }
        n := n - 1;
      }
      alive := *;
      alive := alive || !mayDie;
      if !alive { Die(ref); }
    }

    method Die(ref: SubscriptionRef)
      requires Traced() && Sound(Now()) && !Idle(Now(), ref)
      modifies this`jobs, this`dropped, this`steps
      ensures Traced() && Sound(Now()) && steps == old(steps) + [Crash(ref)]
      ensures jobs == old(jobs)[ref := Job(old(jobs[ref]).order, Answered(Crashed))]
    {
      hide Possible, Steps, Good, IdsPlaced, OneLive, OperationsFor;
      ghost var before := Now();
      assert JobSound(before, ref, jobs[ref]);
      var hand := InHand(jobs[ref].place);
      if hand != "" { dropped := dropped + {hand}; }
      jobs := jobs[ref := Job(jobs[ref].order, Answered(Crashed))];
      Record(before, Crash(ref));
    }

    /** A step that others take. */
    method Happen(step: Step, ref: SubscriptionRef)
      requires Traced() && Sound(Now()) && Enabled(Now(), step) && !Acts(step, ref)
      modifies this`jobs, this`created, this`dropped, this`steps, uow
      ensures Traced() && Sound(Now()) && steps == old(steps) + [step]
      ensures ref in jobs <==> ref in old(jobs)
      ensures ref in jobs ==> jobs[ref] == old(jobs[ref])
    {
      hide Do, Enabled, Sound, Acts, Steps, Possible;
      ghost var before := Now();
      OthersStay(Now(), step, ref);
      var after := Do(Now(), step);
      uow.committed, uow.working := after.store, after.store;
      jobs, created, dropped := after.jobs, after.created, after.dropped;
      Record(before, step);
    }

    /** Moves this job, after a step has happened. */
    method MoveTo(order: Order, place: Place, ghost before: World, ghost step: Step)
      requires WasTraced(before) && Sound(before) && before.jobs == jobs
      requires Enabled(before, step)
      requires Do(before, step) == World(uow.committed, jobs[order.ref := Job(order, place)], created, dropped)
      modifies this`jobs, this`steps
      ensures Traced() && Sound(Now()) && steps == old(steps) + [step] && jobs == old(jobs)[order.ref := Job(order, place)]
    {
      hide Do, Enabled, Sound, Steps, Possible;
      jobs := jobs[order.ref := Job(order, place)];
      Record(before, step);
    }

    /** Up to the gateway call: an answer, or the operation to carry on with. */
    method Begin(order: Order) returns (answer: Option<Answer>, operation: GatewayOperation?)
      requires Traced() && Sound(Now()) && Idle(Now(), order.ref)
      modifies this`jobs, this`steps, uow
      ensures Traced() && Sound(Now()) && order.ref in jobs
      ensures exists lands :: steps == old(steps) + [Start(order, lands)]
      ensures answer.Some? ==> jobs[order.ref] == Job(order, Answered(answer.value))
      ensures answer.Some? ==> answer.value.AlreadyThere? || answer.value == Refused || (answer.value == Broken && uow.mayFail)
      ensures answer.None? ==> operation != null && fresh(operation)
                               && jobs[order.ref] == Job(order, Ready(operation.id, operation.Row()))
    {
      hide Sound, Steps, Possible, Do, Enabled;
      ghost var before := Now();
      operation := null;
      StartIs(before, order);
      var existing := FindSubscriptionBySystemRef(uow.working.subscriptions, order.ref.systemSubscriptionId, order.ref.system);
      if existing.Some? {
        answer := Some(AlreadyThere(existing.value));
        MoveTo(order, Answered(answer.value), before, Start(order, true));
        return;
      }
      operation := uow.GetOperationByKey(KeyFor(order.ref));
      if operation != null {
        if operation.status != Rejected || operation.gatewayReference != "" {
          answer := Some(Refused);
          MoveTo(order, Answered(Refused), before, Start(order, true));
          return;
        }
        MoveTo(order, Ready(operation.id, operation.Row()), before, Start(order, true));
        return None, operation;
      }
      operation := uow.AddOperation(NewOperation(order));
      var landed := uow.TryCommit();
      if !landed {
        uow.Rollback();
        answer := Some(Broken);
        MoveTo(order, Answered(Broken), before, Start(order, false));
        return;
      }
      MoveTo(order, Ready(operation.id, operation.Row()), before, Start(order, true));
      answer := None;
    }

    method CallGateway(order: Order, operation: GatewayOperation) returns (outcome: CreateOutcome)
      requires Traced() && Sound(Now()) && order.ref in jobs
      requires jobs[order.ref] == Job(order, Ready(operation.id, operation.Row()))
      modifies this`jobs, this`created, this`steps
      ensures Traced() && Sound(Now()) && steps == old(steps) + [CallCreate(order.ref, outcome)]
      ensures order.ref in jobs && jobs[order.ref] == Job(order, CalledWith(operation.id, operation.Row(), outcome))
      ensures outcome.Created? ==> outcome.id != ""
    {
      hide Sound, Steps, Possible;
      ghost var before := Now();
      outcome := gateway.CreateSubscription(order, Now());
      if outcome.Created? { created := created[outcome.id := order.ref]; }
      MoveTo(order, CalledWith(operation.id, operation.Row(), outcome), before, CallCreate(order.ref, outcome));
    }

    /** The commit that binds the subscription, or an exception and nothing. */
    method Bind(order: Order, operation: GatewayOperation, id: string) returns (done: bool, message: string)
      requires Traced() && Sound(Now()) && order.ref in jobs
      requires jobs[order.ref] == Job(order, Holding(operation.id, operation.Row(), id)) && id != ""
      modifies this`jobs, this`steps, uow, operation
      ensures Traced() && Sound(Now()) && order.ref in jobs
      ensures |steps| == |old(steps)| + 1 && old(steps) <= steps
      ensures steps[|old(steps)|].Conclude? && steps[|old(steps)|].ref == order.ref
      ensures done ==> jobs[order.ref] == Job(order, Answered(CreatedNow))
      ensures var last := steps[|old(steps)|];
              done ==> last.fetched.Some? && EndsWithOrder(uow.committed, order, id, last.fetched.value, last.now)
      ensures !done ==> jobs[order.ref] == Job(order, Recovering(operation.id, SetAside(operation.Row(), id, message), id))
      ensures var fetched := steps[|old(steps)|].fetched;
              && (fetched.Some? || gateway.mayRaise)
              && (done || uow.mayFail || fetched.None? || !Binds(old(uow.committed), order, id, fetched.value))
    {
      hide Sound, Steps, Possible, Do, Enabled, BoundAs, EndsWithOrder;
      ghost var before := Now();
      ghost var op := operation.Row();
      var now: DateTime := *;
      message := *;
      var fetched := gateway.GetSubscriptionPayments(id);
      ConcludeIs(before, order.ref, fetched, message, now);
      done := Write(order, operation, id, fetched, now);
      if !done { uow.Rollback(); }
      else { BoundEndsWithOrder(before.store, uow.committed, order, operation.id, id, fetched.value, now); }
      var recovering := Recovering(operation.id, SetAside(operation.Row(), id, message), id);
      assert SetAside(operation.Row(), id, message) == SetAside(op, id, message);
      MoveTo(order, if done then Answered(CreatedNow) else recovering, before, Conclude(order.ref, fetched, done, message, now));
    }

    /** The writes and the commit of `Bind`. */
    method Write(order: Order, operation: GatewayOperation, id: string, fetched: Option<seq<GatewayPayment>>, now: DateTime)
      returns (done: bool)
      requires uow.working == uow.committed && operation.id < |uow.working.operations| && id != ""
      modifies uow, operation
      ensures if done then uow.working == uow.committed
                           && Bound(old(uow.committed), order, operation.id, id, fetched, now) == Some(uow.committed)
              else uow.committed == old(uow.committed)
      ensures done ==> fetched.Some?
                       && BoundAs(old(uow.committed), uow.committed, order, operation.id, id, fetched.value, now)
      ensures done || uow.mayFail || fetched.None? || !Binds(old(uow.committed), order, id, fetched.value)
      ensures operation.key == old(operation.Row()).key && SameRequest(old(operation.Row()), operation.Row())
    {
      hide BoundAs, Binds;
      ghost var before := uow.committed;
      BindingCommits(before, order, operation.id, id, fetched, now);
      var sub := NewSubscription(order, id);
      if sub.None? { return false; }
      var subscription := new Subscription(sub.value, None);
      var ok, k := uow.SaveSubscription(subscription);
      if !ok { return false; }
      if fetched.None? { return false; }
      var p := FirstPending(fetched.value);
      if p.None? && |fetched.value| > 0 { p := Some(fetched.value[0]); }
      if p.None? { return false; }
      var invoice := NewInvoice(order.ref.systemSubscriptionId + ":" + p.value.paymentId, p.value.paymentId, sub.value, k,
                                p.value.value, p.value.paymentType, p.value.invoiceUrl, now);
      if invoice.None? { return false; }
      var payment := new Payment(invoice.value, None);
      var stored, i := uow.SavePayment(payment);
      if !stored { return false; }
      var marked := operation.MarkCompleted(id);
      uow.SaveOperation(operation);
      assert Some(uow.working) == Bound(before, order, operation.id, id, fetched, now);
      done := uow.TryCommit();
    }

    /** The recovery's commit: what became of the operation. */
    method RecordOutcome(order: Order, operation: GatewayOperation, id: string) returns (landed: bool)
      requires Traced() && Sound(Now()) && order.ref in jobs
      requires jobs[order.ref] == Job(order, Recovering(operation.id, operation.Row(), id))
      modifies this`jobs, this`dropped, this`steps, uow
      ensures Traced() && Sound(Now()) && order.ref in jobs && steps == old(steps) + [Recover(order.ref, landed)]
      ensures jobs[order.ref] == Job(order, Answered(if !landed then Broken else if id == "" then FailedNow else SetAsideNow))
      ensures landed || uow.mayFail
    {
      hide Sound, Steps, Possible, Do, Enabled;
      ghost var before := Now();
      RecoverIs(before, order.ref);
      uow.SaveOperation(operation);
      landed := uow.TryCommit();
      if !landed {
        uow.Rollback();
        if id != "" { dropped := dropped + {id}; }
      }
      MoveTo(order, Answered(if !landed then Broken else if id == "" then FailedNow else SetAsideNow), before,
             Recover(order.ref, landed));
    }

    /** The gateway call and its binding. Without an answer, the operation in
        memory says what to record. */
    method Issue(order: Order, operation: GatewayOperation) returns (answer: Option<Answer>, id: string)
      requires Traced() && Sound(Now()) && order.ref in jobs
      requires jobs[order.ref] == Job(order, Ready(operation.id, operation.Row()))
      modifies this`jobs, this`created, this`dropped, this`steps, uow, operation
      ensures Traced() && Sound(Now()) && old(steps) <= steps && order.ref in jobs
      ensures jobs[order.ref] == Job(order, if answer.Some? then Answered(answer.value)
                                            else Recovering(operation.id, operation.Row(), id))
      ensures answer == Some(CreatedNow) ==> CreatedSince(steps, |old(steps)|, order, uow.committed)
      ensures answer.Some? ==> answer.value == CreatedNow || (answer.value == Crashed && mayDie)
      ensures answer.None? && id == "" ==>
                |steps| > |old(steps)| && steps[|old(steps)|].CallCreate? && steps[|old(steps)|].outcome.NotCreated?
    {
      hide Sound, Steps, Possible, Do, Enabled, EndsWithOrder;
      id := "";
      var outcome := CallGateway(order, operation);
      var alive := Await(order.ref);
      if !alive { return Some(Crashed), id; }
      answer := None;
      match outcome {
        case Created(given) =>
          id := given;
          var done, message := Bind(order, operation, id);
          if done {
            assert CreatedAt(steps, |old(steps)|, order, uow.committed);
            return Some(CreatedNow), id;
          }
          operation.MarkRequiresReconciliation(id, message);
        case NotCreated(message) =>
          operation.MarkFailed(message);
      }
    }

    /** `execute`: a start, and then only steps the protocol allows this job, up
        to the answer; when nothing fails, the start answers, or the subscription is
        created, or its request set aside. */
    method Execute(order: Order) returns (answer: Answer)
      requires Traced() && Sound(Now()) && Idle(Now(), order.ref)
      modifies this`jobs, this`created, this`dropped, this`steps, uow
      ensures Traced() && Sound(Now()) && old(steps) < steps
      ensures steps[|old(steps)|].Start? && steps[|old(steps)|].order == order
      ensures order.ref in jobs && jobs[order.ref] == Job(order, Answered(answer))
      ensures answer == CreatedNow ==> CreatedSince(steps, |old(steps)|, order, uow.committed)
      ensures Calm() ==> answer in {CreatedNow, SetAsideNow, FailedNow}
                         || ((answer.AlreadyThere? || answer == Refused) && |steps| == |old(steps)| + 1)
    {
      hide Sound, Steps, Possible, Do, Enabled, CreatedAt;
      var begun, operation := Begin(order);
      if begun.Some? { return begun.value; }
      var alive := Await(order.ref);
      if !alive { return Crashed; }
      var issued, id := Issue(order, operation);
      if issued.Some? { return issued.value; }
      alive := Await(order.ref);
      if !alive { return Crashed; }
      var landed := RecordOutcome(order, operation, id);
      answer := if !landed then Broken else if id == "" then FailedNow else SetAsideNow;
    }
  }

  function CalledWith(o: nat, op: OperationRow, outcome: CreateOutcome): Place {
    match outcome
    case Created(id) => Holding(o, op, id)
    case NotCreated(message) => Recovering(o, Fail(op, message), "")
  }

  /** The cases of a start. */
  lemma StartIs(w: World, order: Order)
    requires Idle(w, order.ref)
    ensures forall lands :: Enabled(w, Start(order, lands)) && Do(w, Start(order, lands)) == DoStart(w, order, lands)
  {
  }

  lemma ConcludeIs(w: World, ref: SubscriptionRef, fetched: Option<seq<GatewayPayment>>, message: string, now: DateTime)
    requires Sound(w) && ref in w.jobs && w.jobs[ref].place.Holding?
    ensures forall lands :: Enabled(w, Conclude(ref, fetched, lands, message, now))
              && Do(w, Conclude(ref, fetched, lands, message, now)) == DoConclude(w, ref, fetched, lands, message, now)
    ensures var o := w.jobs[ref].place.o; o < |w.store.operations| && w.store.operations[o].key == KeyFor(ref)
  {
    assert JobSound(w, ref, w.jobs[ref]);
  }

  lemma RecoverIs(w: World, ref: SubscriptionRef)
    requires Sound(w) && ref in w.jobs && w.jobs[ref].place.Recovering?
    ensures forall lands :: Enabled(w, Recover(ref, lands)) && Do(w, Recover(ref, lands)) == DoRecover(w, ref, lands)
    ensures w.jobs[ref].place.o < |w.store.operations|
  {
    assert JobSound(w, ref, w.jobs[ref]);
  }
}
