/** `CreateCheckout` over the unit of work and a gateway, with everything else
    happening at its awaits. */
module CheckoutService {
  import opened BillingCalendar
  import opened Entities
  import opened EntityObjects
  import opened Storage
  import opened CheckoutProtocol
  import opened CheckoutLaws
  import opened CheckoutOutcomes

  lemma {:induction false} RunGrows(w: World, steps: seq<Step>, step: Step)
    requires Possible(w, steps) && Enabled(Steps(w, steps), step)
    ensures Possible(w, steps + [step]) && Steps(w, steps + [step]) == Do(Steps(w, steps), step)
    decreases |steps|
  {
    hide Do, Enabled;
    if steps == [] {
      assert [step][1..] == [];
    } else {
      assert (steps + [step])[1..] == steps[1..] + [step];
      RunGrows(Do(w, steps[0]), steps[1..], step);
    }
  }

  /** Answers every call unless it `mayRaise`. */
  class Gateway {
    const mayRaise: bool

    constructor (mayRaise: bool)
      ensures this.mayRaise == mayRaise
    {
      this.mayRaise := mayRaise;
    }

    /** A checkout with a name, or an exception. */
    method CreateCheckout(order: Order, reference: ExternalReference) returns (outcome: CreateOutcome)
      ensures outcome.Created? ==> outcome.checkoutId != ""
      ensures outcome.Created? || mayRaise
    {
      outcome := *;
      if !outcome.Created? && !mayRaise {
        var url: string := *;
        outcome := Created("", url);
      }
      if outcome.Created? && outcome.checkoutId == "" {
        outcome := if mayRaise then Raised(TimedOut("")) else Created("checkout", outcome.url);
      }
    }
  }

  /** The service; its process dies at no await unless it `mayDie`. */
  class CreateCheckout {
    const uow: UnitOfWork
    const gateway: Gateway
    const mayDie: bool
    var jobs: map<PaymentRef, Job>
    ghost var start: Store
    ghost var steps: seq<Step>

    constructor (uow: UnitOfWork, gateway: Gateway, mayDie: bool)
      requires uow.working == uow.committed
      ensures this.uow == uow && this.gateway == gateway && this.mayDie == mayDie && jobs == map[] && Traced()
    {
      this.uow, this.gateway, this.mayDie, jobs, start, steps := uow, gateway, mayDie, map[], uow.committed, [];
    }

    /** Nothing fails: no commit, no call, and the process lives. */
    predicate Calm() {
      !uow.mayFail && !gateway.mayRaise && !mayDie
    }

    function Now(): World
      reads this, uow
    {
      World(uow.committed, jobs)
    }

    /** The present is what the steps so far made of the store at the start. */
    ghost predicate Traced()
      reads this, uow
    {
      uow.working == uow.committed && Possible(World(start, map[]), steps) && Steps(World(start, map[]), steps) == Now()
    }

    /** Records a step that this code has just taken. */
    ghost method Record(before: World, step: Step)
      requires uow.working == uow.committed && Possible(World(start, map[]), steps)
      requires Steps(World(start, map[]), steps) == before && Enabled(before, step) && Do(before, step) == Now()
      modifies this`steps
      ensures Traced() && steps == old(steps) + [step]
    {
      RunGrows(World(start, map[]), steps, step);
      steps := steps + [step];
    }

    /** An await: anything else happens, and the process may die. */
    method Await(ref: PaymentRef) returns (alive: bool)
      requires Traced() && !Idle(Now(), ref) && AllHeld(Now())
      modifies this`jobs, this`steps, uow
      ensures Traced() && AllHeld(Now()) && start == old(start) && old(steps) <= steps
      ensures ref in jobs && jobs[ref] == if alive then old(jobs[ref]) else Job(old(jobs[ref]).order, Answered(Crashed))
      ensures alive || mayDie
    {
      var n: nat := *;
      while n > 0
        invariant Traced() && AllHeld(Now()) && old(steps) <= steps && ref in jobs && jobs[ref] == old(jobs[ref])
      {
        var step: Step := *;
        if !Acts(step, ref) && Enabled(Now(), step) { Happen(step, ref); }
        n := n - 1;
      }
      alive := *;
      alive := alive || !mayDie;
      if !alive {
        ghost var before := Now();
        HeldOp(Now(), ref);
        StepHolds(Now(), Crash(ref));
        jobs := jobs[ref := Job(jobs[ref].order, Answered(Crashed))];
        Record(before, Crash(ref));
      }
    }

    /** A step that others take. */
    method Happen(step: Step, ref: PaymentRef)
      requires Traced() && AllHeld(Now()) && Enabled(Now(), step) && !Acts(step, ref)
      modifies this`jobs, this`steps, uow
      ensures Traced() && AllHeld(Now()) && steps == old(steps) + [step]
      ensures ref in jobs <==> ref in old(jobs)
      ensures ref in jobs ==> jobs[ref] == old(jobs[ref])
    {
      hide Do, Enabled, AllHeld, Acts, Steps, Possible;
      ghost var before := Now();
      OthersStay(Now(), step, ref);
      StepHolds(Now(), step);
      var after := Do(Now(), step);
      uow.committed, uow.working, jobs := after.store, after.store, after.jobs;
      Record(before, step);
    }

    /** Moves this job, after a step has happened. */
    method MoveTo(order: Order, place: Place, ghost before: World, ghost step: Step)
      requires uow.working == uow.committed && Possible(World(start, map[]), steps)
      requires Steps(World(start, map[]), steps) == before && before.jobs == jobs && AllHeld(before)
      requires Enabled(before, step) && Do(before, step) == Moved(before.(store := uow.committed), order, place)
      modifies this`jobs, this`steps
      ensures Traced() && AllHeld(Now()) && steps == old(steps) + [step] && jobs == old(jobs)[order.ref := Job(order, place)]
    {
      hide Do, Enabled, AllHeld, Steps, Possible;
      StepHolds(before, step);
      jobs := jobs[order.ref := Job(order, place)];
      Record(before, step);
    }

    /** Up to the gateway call: an answer, or the operation to carry on with and
        the payment to renew. */
    method Begin(order: Order) returns (answer: Option<Answer>, operation: GatewayOperation?, payment: Payment?)
      requires Traced() && AllHeld(Now()) && Idle(Now(), order.ref)
      modifies this`jobs, this`steps, uow
      ensures Traced() && AllHeld(Now()) && order.ref in jobs
      ensures exists lands :: steps == old(steps) + [Start(order, lands)]
      ensures answer.Some? ==> jobs[order.ref] == Job(order, Answered(answer.value))
      ensures answer.Some? ==> answer.value.AlreadyIssued? || answer.value == Refused || (answer.value == Broken && uow.mayFail)
      ensures answer.None? ==>
                && operation != null && fresh(operation) && (payment != null ==> fresh(payment) && payment.id.Some?)
                && jobs[order.ref] == Job(order, Ready(operation.id, operation.Row(), Reading(payment)))
    {
      hide AllHeld, Steps, Possible, Do, Enabled;
      ghost var before := Now();
      operation := null;
      payment := uow.GetPaymentBySystemRef(order.ref.systemPaymentId, order.ref.system);
      StartIs(before, order);
      if payment != null && payment.status !in {Expired, Canceled} {
        answer := Some(AlreadyIssued(payment.id.value));
        MoveTo(order, Answered(answer.value), before, Start(order, true));
        return;
      }
      var existing := Reading(payment);
      assert existing == ExistingOf(before.store, order.ref);
      operation := uow.GetOperationByKey(KeyFor(order.ref, existing));
      if operation != null {
        if operation.status != Rejected || operation.gatewayReference != "" {
          answer := Some(Refused);
          MoveTo(order, Answered(Refused), before, Start(order, true));
          return;
        }
        MoveTo(order, Ready(operation.id, operation.Row(), existing), before, Start(order, true));
        return None, operation, payment;
      }
      operation := uow.AddOperation(NewOperation(order, existing));
      var landed := uow.TryCommit();
      if !landed {
        uow.Rollback();
        answer := Some(Broken);
        MoveTo(order, Answered(Broken), before, Start(order, false));
        return;
      }
      MoveTo(order, Ready(operation.id, operation.Row(), existing), before, Start(order, true));
      answer := None;
    }

    method CallGateway(order: Order, operation: GatewayOperation, ghost existing: Existing, reference: ExternalReference)
      returns (outcome: CreateOutcome)
      requires Traced() && AllHeld(Now()) && order.ref in jobs
      requires jobs[order.ref] == Job(order, Ready(operation.id, operation.Row(), existing))
      modifies this`jobs, this`steps
      ensures Traced() && AllHeld(Now()) && steps == old(steps) + [CallCreate(order.ref, outcome)]
      ensures outcome.Created? ==> outcome.checkoutId != ""
      ensures outcome.Created? || gateway.mayRaise
      ensures order.ref in jobs && jobs[order.ref] == Job(order, CalledWith(operation.id, operation.Row(), existing, outcome))
    {
      hide AllHeld, Steps, Possible;
      ghost var before := Now();
      outcome := gateway.CreateCheckout(order, reference);
      var at := jobs[order.ref].place;
      MoveTo(order, CalledWith(at.o, at.op, at.existing, outcome), before, CallCreate(order.ref, outcome));
    }

    /** The commit after the gateway created the checkout: the payment and the
        operation together, or an exception and neither. */
    method Mirror(order: Order, operation: GatewayOperation, payment: Payment?, checkoutId: string, url: string)
      returns (done: bool, message: string)
      requires Traced() && AllHeld(Now()) && order.ref in jobs && (payment != null ==> payment.id.Some?) && checkoutId != ""
      requires jobs[order.ref] == Job(order, Issued(operation.id, operation.Row(), Reading(payment), checkoutId, url))
      modifies this`jobs, this`steps, uow, operation, payment
      ensures Traced() && AllHeld(Now()) && order.ref in jobs
      ensures |steps| == |old(steps)| + 1 && old(steps) <= steps
      ensures steps[|old(steps)|].Conclude? && steps[|old(steps)|].ref == order.ref
      ensures done ==> jobs[order.ref] == Job(order, Answered(IssuedNow)) && Carries(uow.committed, order, checkoutId, url)
      ensures !done ==> jobs[order.ref] == Job(order, Recovering(operation.id, SetAside(operation.Row(), checkoutId, message)))
      ensures done || uow.mayFail || !Issues(old(uow.committed), order, old(jobs[order.ref].place))
    {
      hide AllHeld, Steps, Possible, Do, Enabled, IssuedAs, Carries;
      ghost var before := Now();
      var at := jobs[order.ref].place;
      var now: DateTime := *;
      message := *;
      ConcludeIs(before, order.ref, message, now);
      done := Write(order, operation, payment, checkoutId, url, now, at);
      if done { IssuedCarries(before.store, uow.committed, order, at, now); } else { uow.Rollback(); }
      MoveTo(order, if done then Answered(IssuedNow) else Recovering(at.o, SetAside(at.op, checkoutId, message)),
             before, Conclude(order.ref, done, message, now));
    }

    /** The writes and the commit of `Mirror`. */
    method Write(order: Order, operation: GatewayOperation, payment: Payment?, checkoutId: string, url: string,
                 now: DateTime, ghost at: Place)
      returns (done: bool)
      requires uow.working == uow.committed && operation.id < |uow.working.operations| && checkoutId != ""
      requires payment != null ==> payment.id.Some? && payment.id.value < |uow.working.payments|
      requires at == Issued(operation.id, operation.Row(), Reading(payment), checkoutId, url)
      modifies uow, operation, payment
      ensures if done then uow.working == uow.committed && Concluded(old(uow.committed), order, at, now) == Some(uow.committed)
              else uow.committed == old(uow.committed)
      ensures done ==> IssuedAs(old(uow.committed), uow.committed, order, at, now)
      ensures done || uow.mayFail || Concluded(old(uow.committed), order, at, now) == None
      ensures !done ==> SetAside(operation.Row(), checkoutId, "") == SetAside(at.op, checkoutId, "")
    {
      hide IssuedAs, Issues;
      ghost var before := uow.committed;
      IssuingCommits(before, order, at, now);
      var reference := ReferenceFor(order.ref, Reading(payment));
      var saved: Payment;
      if payment != null {
        var renewed := payment.RenewCheckout(checkoutId, url, reference, now);
        if !renewed { return false; }
        payment.gateway := order.provider;
        saved := payment;
      } else {
        var made := NewCheckout(order.ref.systemPaymentId, checkoutId, order.ref.system, order.provider, order.value, url,
                                order.webhookLink, reference, now);
        if made.None? { return false; }
        saved := new Payment(made.value, None);
      }
      var ok, _ := uow.SavePayment(saved);
      if !ok { return false; }
      var marked := operation.MarkCompleted(checkoutId);
      uow.SaveOperation(operation);
      assert Some(uow.working) == Concluded(before, order, at, now);
      done := uow.TryCommit();
    }

    /** The recovery's commit: what became of the operation. */
    method RecordOutcome(order: Order, operation: GatewayOperation) returns (landed: bool)
      requires Traced() && AllHeld(Now()) && order.ref in jobs
      requires jobs[order.ref] == Job(order, Recovering(operation.id, operation.Row()))
      modifies this`jobs, this`steps, uow
      ensures Traced() && AllHeld(Now()) && order.ref in jobs && steps == old(steps) + [Recover(order.ref, landed)]
      ensures jobs[order.ref] == Job(order, Answered(
                if !landed then Broken else if operation.status == Rejected then FailedNow else SetAsideNow))
      ensures landed || uow.mayFail
    {
      hide AllHeld, Steps, Possible, Do, Enabled;
      ghost var before := Now();
      RecoverIs(before, order.ref);
      uow.SaveOperation(operation);
      landed := uow.TryCommit();
      if !landed { uow.Rollback(); }
      MoveTo(order, Answered(if !landed then Broken else if operation.status == Rejected then FailedNow else SetAsideNow),
             before, Recover(order.ref, landed));
    }

    /** The gateway call and its mirror. Without an answer, the operation in
        memory says what to record. */
    method Issue(order: Order, operation: GatewayOperation, payment: Payment?) returns (answer: Option<Answer>)
      requires Traced() && AllHeld(Now()) && order.ref in jobs && (payment != null ==> payment.id.Some?)
      requires jobs[order.ref] == Job(order, Ready(operation.id, operation.Row(), Reading(payment)))
      modifies this`jobs, this`steps, uow, operation, payment
      ensures Traced() && AllHeld(Now()) && old(steps) <= steps && order.ref in jobs
      ensures jobs[order.ref] == Job(order, if answer.Some? then Answered(answer.value)
                                            else Recovering(operation.id, operation.Row()))
      ensures answer == Some(IssuedNow) ==> IssuedSince(steps, |old(steps)|, order, uow.committed)
      ensures answer.Some? ==> answer.value == IssuedNow || (answer.value == Crashed && mayDie)
      ensures answer.None? ==> operation.status == RequiresReconciliation || gateway.mayRaise
    {
      hide AllHeld, Steps, Possible, Do, Enabled, Carries;
      var existing := Reading(payment);
      var outcome := CallGateway(order, operation, existing, ReferenceFor(order.ref, existing));
      var alive := Await(order.ref);
      if !alive { return Some(Crashed); }
      answer := None;
      match outcome {
        case Created(checkoutId, url) =>
          var done, message := Mirror(order, operation, payment, checkoutId, url);
          if done {
            assert IssuedAt(steps, |old(steps)|, order, uow.committed);
            return Some(IssuedNow);
          }
          operation.MarkRequiresReconciliation(checkoutId, message);
        case Raised(e) =>
          if IsUncertain(e) { operation.MarkRequiresReconciliation("", e.message); } else { operation.MarkFailed(e.message); }
      }
    }

    /** `execute`: a start, and then only steps the protocol allows this job, up
        to the answer; when nothing fails, the start answers, or the checkout is
        issued, or its request set aside. */
    method Execute(order: Order) returns (answer: Answer)
      requires Traced() && AllHeld(Now()) && Idle(Now(), order.ref)
      modifies this`jobs, this`steps, uow
      ensures Traced() && AllHeld(Now()) && old(steps) < steps
      ensures steps[|old(steps)|].Start? && steps[|old(steps)|].order == order
      ensures order.ref in jobs && jobs[order.ref] == Job(order, Answered(answer))
      ensures answer == IssuedNow ==> IssuedSince(steps, |old(steps)|, order, uow.committed)
      ensures Calm() ==> answer in {IssuedNow, SetAsideNow}
                         || ((answer.AlreadyIssued? || answer == Refused) && |steps| == |old(steps)| + 1)
    {
      hide AllHeld, Steps, Possible, Do, Enabled, IssuedAt;
      var begun, operation, payment := Begin(order);
      if begun.Some? { return begun.value; }
      var alive := Await(order.ref);
      if !alive { return Crashed; }
      var issued := Issue(order, operation, payment);
      if issued.Some? { return issued.value; }
      alive := Await(order.ref);
      if !alive { return Crashed; }
      var landed := RecordOutcome(order, operation);
      answer := if !landed then Broken else if operation.status == Rejected then FailedNow else SetAsideNow;
    }

    function Reading(payment: Payment?): Existing
      reads payment
      requires payment != null ==> payment.id.Some?
    {
      if payment == null then Nothing else Stored(payment.id.value, payment.Row())
    }
  }

  function CalledWith(o: nat, op: OperationRow, existing: Existing, outcome: CreateOutcome): Place {
    match outcome
    case Created(id, url) => Issued(o, op, existing, id, url)
    case Raised(e) => Recovering(o, if IsUncertain(e) then SetAside(op, "", e.message) else Fail(op, e.message))
  }

  lemma ConcludeIs(w: World, ref: PaymentRef, message: string, now: DateTime)
    requires AllHeld(w) && ref in w.jobs && w.jobs[ref].place.Issued?
    ensures forall lands :: Enabled(w, Conclude(ref, lands, message, now))
              && Do(w, Conclude(ref, lands, message, now)) == DoConclude(w, ref, lands, message, now)
    ensures var place := w.jobs[ref].place;
            place.o < |w.store.operations| && KeyOf(ref, w.store.operations[place.o].key)
            && (place.existing.Stored? ==> place.existing.i < |w.store.payments|)
            && ReadRenewable(w.store, w.jobs[ref].order, place)
  {
    assert Held(w, ref, w.jobs[ref]);
  }

  lemma RecoverIs(w: World, ref: PaymentRef)
    requires AllHeld(w) && ref in w.jobs && w.jobs[ref].place.Recovering?
    ensures forall lands :: Enabled(w, Recover(ref, lands)) && Do(w, Recover(ref, lands)) == DoRecover(w, ref, lands)
    ensures w.jobs[ref].place.o < |w.store.operations|
  {
    assert Held(w, ref, w.jobs[ref]);
  }

  /** The cases of a start. */
  lemma StartIs(w: World, order: Order)
    requires Idle(w, order.ref)
    ensures forall lands :: Enabled(w, Start(order, lands)) && Do(w, Start(order, lands)) == DoStart(w, order, lands)
  {
  }
}
