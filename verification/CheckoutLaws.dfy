/** A payment's checkout is issued at most once for each time it became due:
    once at first, and once for every time the payment expired or was canceled. */
module CheckoutLaws {
  import opened BillingCalendar
  import opened Entities
  import opened Storage
  import opened Transactions
  import opened TransactionLaws
  import opened OperationLaws
  import opened PaymentRowLaws
  import opened CheckoutProtocol

  // ---------------------------------------------------------------- what is counted

  /** The payment's renewal marker, while it may be renewed. */
  function MarkOf(s: Store, ref: PaymentRef): Option<DateTime> {
    var existing := ExistingOf(s, ref);
    if existing.Stored? && Renewable(existing.row) then Some(existing.row.updatedAt) else None
  }

  /** Kept about one payment over a run: the calls that created a checkout or may
      have, the outcomes that were never recorded, the times the payment entered
      EXPIRED or CANCELED, and the generations whose call is accounted for. */
  datatype Tally = Tally(calls: nat, lost: nat, entries: nat, first: bool, renewed: set<DateTime>, markers: set<DateTime>)

  predicate Spent(t: Tally, key: OperationKey) {
    match key
    case CreateCheckoutKey(_, _) => t.first
    case RenewCheckoutKey(_, _, marker) => marker in t.renewed
    case _ => false
  }

  function Spend(t: Tally, key: OperationKey): Tally {
    match key
    case CreateCheckoutKey(_, _) => t.(first := true, calls := t.calls + 1)
    case RenewCheckoutKey(_, _, marker) => t.(renewed := t.renewed + {marker}, calls := t.calls + 1)
    case _ => t
  }

  function Lose(t: Tally, key: OperationKey): Tally {
    match key
    case CreateCheckoutKey(_, _) => t.(first := false, lost := t.lost + 1)
    case RenewCheckoutKey(_, _, marker) => t.(renewed := t.renewed - {marker}, lost := t.lost + 1)
    case _ => t
  }

  /** A call after which the gateway holds a checkout, or may hold one. */
  predicate MayCreate(outcome: CreateOutcome) {
    outcome.Created? || IsUncertain(outcome.exception)
  }

  /** The job ends here, and what its call did is not on record: its operation
      may be taken up again. */
  predicate Loses(t: Tally, w: World, step: Step, ref: PaymentRef)
    requires Enabled(w, step)
  {
    (step == Crash(ref) || (step.Recover? && step.ref == ref)) && Spent(t, w.jobs[ref].place.op.key)
    && var ops := Do(w, step).store.operations;
       var o := FindOperation(ops, w.jobs[ref].place.op.key);
       o.Some? && Retryable(ops[o.value])
  }

  /** The step's commit leaves the payment EXPIRED or CANCELED and found it absent
      or in another status, or reconciled it: renewed first, and then ended again. */
  predicate Enters(w: World, step: Step, ref: PaymentRef)
    requires Enabled(w, step)
  {
    var before, after := ExistingOf(w.store, ref), ExistingOf(Do(w, step).store, ref);
    && after.Stored? && Renewable(after.row)
    && (before.Nothing? || !Renewable(before.row)
        || (step.Foreign? && Do(w, step).store != w.store && RenewsFirst(w.store, step.t, before.i)))
  }

  function One(b: bool): nat {
    if b then 1 else 0
  }

  function Count(t: Tally, w: World, step: Step, ref: PaymentRef): Tally
    requires Enabled(w, step)
  {
    var called := if step.CallCreate? && step.ref == ref && MayCreate(step.outcome) then Spend(t, w.jobs[ref].place.op.key)
                  else t;
    var ended := if Loses(t, w, step, ref) then Lose(t, w.jobs[ref].place.op.key) else called;
    var mark := MarkOf(Do(w, step).store, ref);
    ended.(entries := ended.entries + One(Enters(w, step, ref)),
           markers := if mark.Some? then ended.markers + {mark.value} else ended.markers)
  }

  function CountAll(t: Tally, w: World, steps: seq<Step>, ref: PaymentRef): Tally
    requires Possible(w, steps)
    decreases |steps|
  {
    if steps == [] then t else CountAll(Count(t, w, steps[0], ref), Do(w, steps[0]), steps[1..], ref)
  }

  // ---------------------------------------------------------------- what every step keeps

  predicate HasReferenceOf(row: PaymentRow, ref: PaymentRef) {
    row.systemPaymentId == ref.systemPaymentId && row.fromSystem == ref.system
  }

  /** A job holds an open operation of its own payment, and may have read that
      payment, ended. */
  predicate Held(w: World, ref: PaymentRef, job: Job) {
    job.order.ref == ref &&
    (!job.place.Answered? ==>
      && KeyOf(ref, job.place.op.key)
      && job.place.o < |w.store.operations| && FindOperation(w.store.operations, job.place.op.key) == Some(job.place.o)
      && w.store.operations[job.place.o].status in {InProgress, Rejected}
      && (!job.place.Recovering? || job.place.op.status == Rejected ==> job.place.op.gatewayReference == "")
      && (!job.place.Recovering? && job.place.existing.Stored? ==>
            job.place.existing.i < |w.store.payments| && HasReferenceOf(job.place.existing.row, ref)
            && Renewable(job.place.existing.row))
      && (job.place.Recovering? ==> job.place.op.status in {Rejected, RequiresReconciliation}))
  }

  ghost predicate AllHeld(w: World) {
    forall ref :: ref in w.jobs ==> Held(w, ref, w.jobs[ref])
  }

  predicate InFlight(w: World, ref: PaymentRef, key: OperationKey) {
    ref in w.jobs && (w.jobs[ref].place.Issued? || w.jobs[ref].place.Recovering?) && w.jobs[ref].place.op.key == key
  }

  /** No other call can be made for this generation. */
  predicate Blocked(w: World, ref: PaymentRef, key: OperationKey) {
    var o := FindOperation(w.store.operations, key);
    o.Some? && (!Retryable(w.store.operations[o.value]) || InFlight(w, ref, key))
  }

  predicate Marked(t: Tally, key: OperationKey) {
    key.RenewCheckoutKey? ==> key.marker in t.markers
  }

  predicate JobCounted(w: World, t: Tally, ref: PaymentRef) {
    ref in w.jobs && !w.jobs[ref].place.Answered? ==>
      var place := w.jobs[ref].place;
      && Marked(t, place.op.key)
      && (Spent(t, place.op.key) <==> place.Issued? || (place.Recovering? && place.op.status == RequiresReconciliation))
  }

  ghost predicate SpentIsBlocked(w: World, t: Tally, ref: PaymentRef) {
    forall key :: KeyOf(ref, key) && Spent(t, key) ==> Blocked(w, ref, key)
  }

  /** Every call is a generation's, or lost; generations renewed were marked. */
  predicate Balanced(t: Tally) {
    t.calls == One(t.first) + |t.renewed| + t.lost && t.renewed <= t.markers
  }

  ghost predicate Counted(w: World, t: Tally, ref: PaymentRef) {
    && Balanced(t)
    && (MarkOf(w.store, ref).Some? ==> MarkOf(w.store, ref).value in t.markers)
    && SpentIsBlocked(w, t, ref)
    && JobCounted(w, t, ref)
  }

  // ---------------------------------------------------------------- operations

  /** Whose operation a step may move. */
  predicate Works(w: World, step: Step, o: nat) {
    match step
    case Conclude(ref, _, _, _) => ref in w.jobs && !w.jobs[ref].place.Answered? && w.jobs[ref].place.o == o
    case Recover(ref, _) => ref in w.jobs && !w.jobs[ref].place.Answered? && w.jobs[ref].place.o == o
    case _ => false
  }

  lemma ForeignMoves(s: Store, t: Transaction, o: nat)
    requires MayCommit(s, t) && o < |s.operations| && IsCheckoutKey(s.operations[o].key)
    ensures o < |Apply(s, t).operations| && Apply(s, t).operations[o].key == s.operations[o].key
    ensures Apply(s, t).operations[o] == s.operations[o]
            || (s.operations[o].status == RequiresReconciliation && Apply(s, t).operations[o].status == Completed)
  {
    hide Apply;
    OperationsKept(s, t, o);
    if Rewrites(t) == Some(o) { ReconciledOrAwaiting(s, t); }
  }

  /** A step moves a stored checkout operation if it works on it, or reconciles it. */
  lemma StepMoves(w: World, step: Step, o: nat)
    requires Enabled(w, step) && o < |w.store.operations| && IsCheckoutKey(w.store.operations[o].key)
    ensures var ops := Do(w, step).store.operations;
            && o < |ops| && ops[o].key == w.store.operations[o].key
            && (!Works(w, step, o) ==>
                  ops[o] == w.store.operations[o]
                  || (w.store.operations[o].status == RequiresReconciliation && ops[o].status == Completed))
  {
    hide Apply, WritePayment, Renew, NewCheckout, ExistingOf;
    if step.Foreign? { ForeignMoves(w.store, step.t, o); }
  }

  /** A stored operation's key stays, and a new one opens only for a key not yet there. */
  lemma StepGains(w: World, step: Step)
    requires Enabled(w, step)
    ensures var ops, next := w.store.operations, Do(w, step).store.operations;
            && |ops| <= |next| <= |ops| + 1
            && (forall o :: 0 <= o < |ops| ==> next[o].key == ops[o].key)
            && (|next| > |ops| ==>
                  && FindOperation(ops, next[|ops|].key).None?
                  && (IsCheckoutKey(next[|ops|].key) ==> step.Start? && KeyOf(step.order.ref, next[|ops|].key)))
  {
    hide Apply, WritePayment, Renew, NewCheckout, ExistingOf;
    if step.Foreign? {
      OperationsGained(w.store, step.t);
      forall o | 0 <= o < |w.store.operations|
        ensures o < |Apply(w.store, step.t).operations|
                && Apply(w.store, step.t).operations[o].key == w.store.operations[o].key
      {
        OperationsKept(w.store, step.t, o);
      }
      GainsAtMostOne(w.store, step.t);
    }
  }

  lemma GainsAtMostOne(s: Store, t: Transaction)
    ensures |s.operations| <= |Apply(s, t).operations| <= |s.operations| + 1
    ensures MayCommit(s, t) && |Apply(s, t).operations| > |s.operations| ==>
              !IsCheckoutKey(Apply(s, t).operations[|s.operations|].key)
              && FindOperation(s.operations, Apply(s, t).operations[|s.operations|].key).None?
  {
    hide Apply;
    OperationsGained(s, t);
    if s.operations != [] { OperationsKept(s, t, |s.operations| - 1); }
  }

  /** A stored operation is found where it was. */
  lemma FoundAgain(w: World, step: Step, key: OperationKey)
    requires Enabled(w, step) && FindOperation(w.store.operations, key).Some?
    ensures FindOperation(Do(w, step).store.operations, key) == FindOperation(w.store.operations, key)
  {
    hide Do, Enabled;
    StepGains(w, step);
    FindStays(w.store.operations, Do(w, step).store.operations, key);
  }

  /** Jobs of different payments hold different operations. */
  lemma HoldsItsOwn(w: World, a: PaymentRef, b: PaymentRef)
    requires AllHeld(w) && a in w.jobs && b in w.jobs && a != b
    requires !w.jobs[a].place.Answered? && !w.jobs[b].place.Answered?
    ensures w.jobs[a].place.o != w.jobs[b].place.o
  {
    assert Held(w, a, w.jobs[a]) && Held(w, b, w.jobs[b]);
  }

  predicate Acts(step: Step, ref: PaymentRef) {
    match step
    case Foreign(_) => false
    case Start(order, _) => order.ref == ref
    case CallCreate(r, _) => r == ref
    case Conclude(r, _, _, _) => r == ref
    case Recover(r, _) => r == ref
    case Crash(r) => r == ref
  }

  lemma OthersStay(w: World, step: Step, ref: PaymentRef)
    requires AllHeld(w) && Enabled(w, step) && !Acts(step, ref)
    ensures ref in Do(w, step).jobs <==> ref in w.jobs
    ensures ref in w.jobs ==> Do(w, step).jobs[ref] == w.jobs[ref]
  {
    hide Apply, Concluded, ExistingOf;
    match step
    case Foreign(_) =>
    case Start(_, _) =>
    case CallCreate(r, _) => assert Held(w, r, w.jobs[r]);
    case Conclude(r, _, _, _) => assert Held(w, r, w.jobs[r]);
    case Recover(r, _) => assert Held(w, r, w.jobs[r]);
    case Crash(r) => assert Held(w, r, w.jobs[r]);
  }

  /** What a job's own step leaves it holding. */
  lemma ActorHolds(w: World, step: Step, ref: PaymentRef)
    requires AllHeld(w) && Enabled(w, step) && Acts(step, ref)
    ensures ref in Do(w, step).jobs && Held(Do(w, step), ref, Do(w, step).jobs[ref])
  {
    hide Apply, Concluded, ExistingOf, FindOperation;
    match step
    case Start(order, lands) =>
      var existing := ExistingOf(w.store, ref);
      var op := NewOperation(order, existing);
      FoundLast(w.store.operations, op);
      var found := FindOperation(w.store.operations, op.key);
      if found.Some? { FoundKey(w.store.operations, op.key); }
    case CallCreate(r, _) => assert Held(w, r, w.jobs[r]);
    case Conclude(r, _, _, _) => assert Held(w, r, w.jobs[r]);
    case Recover(r, _) => assert Held(w, r, w.jobs[r]);
    case Crash(r) => assert Held(w, r, w.jobs[r]);
  }

  lemma PaymentsRemain(w: World, step: Step)
    requires Enabled(w, step)
    ensures |w.store.payments| <= |Do(w, step).store.payments|
  {
    hide Apply, Renew, NewCheckout, ExistingOf;
    if step.Foreign? { PaymentsStay(w.store, step.t); }
  }

  lemma OtherHolds(w: World, step: Step, ref: PaymentRef)
    requires AllHeld(w) && Enabled(w, step) && !Acts(step, ref) && ref in w.jobs
    ensures Held(Do(w, step), ref, w.jobs[ref])
  {
    hide Do, Enabled, FindOperation;
    var job := w.jobs[ref];
    assert Held(w, ref, job);
    if !job.place.Answered? {
      FoundKey(w.store.operations, job.place.op.key);
      FoundAgain(w, step, job.place.op.key);
      StepMoves(w, step, job.place.o);
      PaymentsRemain(w, step);
      if Works(w, step, job.place.o) { HoldsItsOwn(w, ref, step.ref); }
    }
  }

  lemma StepHolds(w: World, step: Step)
    requires AllHeld(w) && Enabled(w, step)
    ensures AllHeld(Do(w, step))
  {
    hide Do, Enabled, Held;
    forall ref | ref in Do(w, step).jobs ensures Held(Do(w, step), ref, Do(w, step).jobs[ref]) {
      if Acts(step, ref) { ActorHolds(w, step, ref); }
      else {
        OthersStay(w, step, ref);
        OtherHolds(w, step, ref);
      }
    }
  }

  // ---------------------------------------------------------------- the count

  /** Concluding completes the operation or leaves the job in flight; recovery
      writes what was decided, or the job is over. */
  lemma WorkDone(w: World, step: Step, ref: PaymentRef)
    requires AllHeld(w) && Enabled(w, step) && ref in w.jobs && (step.Conclude? || step.Recover?) && step.ref == ref
    ensures var v, job := Do(w, step), w.jobs[ref];
            && job.place.o < |w.store.operations| && job.place.o < |v.store.operations| && ref in v.jobs
            && (step.Conclude? ==>
                  v.store.operations[job.place.o].status == Completed
                  || (v.jobs[ref].place.Recovering? && v.jobs[ref].place.op.key == job.place.op.key))
            && (step.Recover? ==>
                  v.store.operations[job.place.o].status == job.place.op.status
                  || v.store.operations[job.place.o] == w.store.operations[job.place.o])
  {
    hide ExistingOf, FindOperation, WritePayment, Renew, NewCheckout;
    assert Held(w, ref, w.jobs[ref]);
  }

  lemma OnlyItsJobWorks(w: World, step: Step, ref: PaymentRef, key: OperationKey)
    requires AllHeld(w) && Enabled(w, step) && KeyOf(ref, key) && FindOperation(w.store.operations, key).Some?
    requires Works(w, step, FindOperation(w.store.operations, key).value)
    ensures step.ref == ref && w.jobs[ref].place.op.key == key
  {
    FoundKey(w.store.operations, key);
    assert Held(w, step.ref, w.jobs[step.ref]);
    FoundKey(w.store.operations, w.jobs[step.ref].place.op.key);
  }

  /** A generation accounted for stays blocked, unless its outcome is lost. */
  lemma StaysBlocked(w: World, step: Step, ref: PaymentRef, t: Tally, key: OperationKey)
    requires AllHeld(w) && Enabled(w, step) && JobCounted(w, t, ref) && KeyOf(ref, key)
    requires Spent(t, key) && Blocked(w, ref, key)
    ensures Blocked(Do(w, step), ref, key) || (Loses(t, w, step, ref) && w.jobs[ref].place.op.key == key)
  {
    hide Do, FindOperation, Held;
    var o := FindOperation(w.store.operations, key).value;
    FoundKey(w.store.operations, key);
    FoundAgain(w, step, key);
    StepMoves(w, step, o);
    if Works(w, step, o) {
      OnlyItsJobWorks(w, step, ref, key);
      WorkDone(w, step, ref);
      if step.Recover? && Retryable(Do(w, step).store.operations[o]) { assert Loses(t, w, step, ref); }
    } else if InFlight(w, ref, key) {
      HoldsFound(w, ref);
      if Acts(step, ref) { assert step == Crash(ref); } else { OthersStay(w, step, ref); }
    }
  }

  lemma HoldsFound(w: World, ref: PaymentRef)
    requires AllHeld(w) && ref in w.jobs && !w.jobs[ref].place.Answered?
    ensures FindOperation(w.store.operations, w.jobs[ref].place.op.key) == Some(w.jobs[ref].place.o)
  {
    assert Held(w, ref, w.jobs[ref]);
  }

  /** A job about to call has not called: its operation can be taken up. */
  lemma ReadyIsUnspent(w: World, order: Order, lands: bool, t: Tally)
    requires AllHeld(w) && Enabled(w, Start(order, lands)) && Counted(w, t, order.ref)
    ensures var v := Do(w, Start(order, lands));
            JobCounted(v, t, order.ref)
  {
    hide Held, FindOperation;
    var existing := ExistingOf(w.store, order.ref);
    var key := KeyFor(order.ref, existing);
    assert KeyOf(order.ref, key);
    assert Spent(t, key) ==> Blocked(w, order.ref, key);
    if FindOperation(w.store.operations, key).Some? { FoundKey(w.store.operations, key); }
  }

  lemma JobStaysCounted(w: World, step: Step, ref: PaymentRef, t: Tally)
    requires AllHeld(w) && Enabled(w, step) && Counted(w, t, ref)
    ensures JobCounted(Do(w, step), Count(t, w, step, ref), ref)
  {
    hide Held, FindOperation, Apply, Concluded, SpentIsBlocked, ExistingOf, MarkOf;
    if !Acts(step, ref) { OthersStay(w, step, ref); }
    else {
      match step
      case Start(order, lands) => ReadyIsUnspent(w, order, lands, t);
      case CallCreate(r, _) => HeldOp(w, ref);
      case Conclude(r, _, _, _) => HeldOp(w, ref);
      case Recover(r, _) => HeldOp(w, ref);
      case Crash(r) => HeldOp(w, ref);
    }
  }

  lemma HeldOp(w: World, ref: PaymentRef)
    requires AllHeld(w) && ref in w.jobs
    ensures w.jobs[ref].order.ref == ref
    ensures !w.jobs[ref].place.Answered? ==> KeyOf(ref, w.jobs[ref].place.op.key)
    ensures w.jobs[ref].place.Recovering? ==> w.jobs[ref].place.op.status in {Rejected, RequiresReconciliation}
  {
    assert Held(w, ref, w.jobs[ref]);
  }

  /** Every step keeps the count. */
  lemma StepCounts(w: World, step: Step, ref: PaymentRef, t: Tally)
    requires AllHeld(w) && Enabled(w, step) && Counted(w, t, ref)
    ensures Counted(Do(w, step), Count(t, w, step, ref), ref)
  {
    hide Do, Enabled, MarkOf, Held, JobCounted, Blocked, FindOperation;
    var next := Count(t, w, step, ref);
    JobStaysCounted(w, step, ref, t);
    forall key | KeyOf(ref, key) && Spent(next, key) ensures Blocked(Do(w, step), ref, key) {
      if Spent(t, key) { StaysBlocked(w, step, ref, t, key); }
      else { NewlySpentIsInFlight(w, step, ref, t, key); }
    }
    NumbersAgree(w, step, ref, t);
  }

  lemma NewlySpentIsInFlight(w: World, step: Step, ref: PaymentRef, t: Tally, key: OperationKey)
    requires AllHeld(w) && Enabled(w, step) && KeyOf(ref, key) && !Spent(t, key) && Spent(Count(t, w, step, ref), key)
    ensures Blocked(Do(w, step), ref, key)
  {
    hide FindOperation, MarkOf;
    HeldOp(w, ref);
    HoldsFound(w, ref);
  }

  lemma SpendBalances(t: Tally, key: OperationKey)
    requires Balanced(t) && !Spent(t, key) && Marked(t, key)
    ensures Balanced(Spend(t, key)) && Spend(t, key).markers == t.markers && Spend(t, key).entries == t.entries
  {
  }

  lemma LoseBalances(t: Tally, key: OperationKey)
    requires Balanced(t) && Spent(t, key)
    ensures Balanced(Lose(t, key)) && Lose(t, key).markers == t.markers && Lose(t, key).entries == t.entries
  {
  }

  lemma NumbersAgree(w: World, step: Step, ref: PaymentRef, t: Tally)
    requires AllHeld(w) && Enabled(w, step) && Counted(w, t, ref)
    ensures var next := Count(t, w, step, ref);
            && Balanced(next)
            && (MarkOf(Do(w, step).store, ref).Some? ==> MarkOf(Do(w, step).store, ref).value in next.markers)
  {
    hide Do, MarkOf, SpentIsBlocked, FindOperation, AllHeld, Spend, Lose, Spent, MayCreate, Retryable, Enters;
    if ref in w.jobs && !w.jobs[ref].place.Answered? {
      var key := w.jobs[ref].place.op.key;
      if Spent(t, key) { LoseBalances(t, key); } else { SpendBalances(t, key); }
    }
  }

  // ---------------------------------------------------------------- over runs

  /** Before any job: a payment that may be renewed has entered that state once. */
  function Opening(s: Store, ref: PaymentRef): Tally {
    var mark := MarkOf(s, ref);
    Tally(0, 0, if mark.Some? then 1 else 0, false, {}, if mark.Some? then {mark.value} else {})
  }

  function Finally(s: Store, steps: seq<Step>, ref: PaymentRef): Tally
    requires Possible(World(s, map[]), steps)
  {
    CountAll(Opening(s, ref), World(s, map[]), steps, ref)
  }

  lemma {:induction false} RunCounts(w: World, steps: seq<Step>, ref: PaymentRef, t: Tally)
    requires AllHeld(w) && Counted(w, t, ref) && Possible(w, steps)
    ensures Counted(Steps(w, steps), CountAll(t, w, steps, ref), ref)
    decreases |steps|
  {
    hide Do, Enabled, AllHeld, Counted, Count;
    if steps != [] {
      StepHolds(w, steps[0]);
      StepCounts(w, steps[0], ref, t);
      RunCounts(Do(w, steps[0]), steps[1..], ref, Count(t, w, steps[0], ref));
    }
  }

  lemma {:induction false} RunHolds(w: World, steps: seq<Step>)
    requires AllHeld(w) && Possible(w, steps)
    ensures AllHeld(Steps(w, steps))
    decreases |steps|
  {
    hide Do, Enabled, AllHeld;
    if steps != [] {
      StepHolds(w, steps[0]);
      RunHolds(Do(w, steps[0]), steps[1..]);
    }
  }

  // ---------------------------------------------------------------- entries

  /** A payment that a job has read is still the payment in its place. */
  predicate StillReads(w: World, ref: PaymentRef, job: Job) {
    (job.place.Ready? || job.place.Issued?) && job.place.existing.Stored? ==>
      var Stored(i, row) := job.place.existing;
      && i < |w.store.payments| && SamePayment(w.store.payments[i], row)
      && row.systemPaymentId == ref.systemPaymentId && row.fromSystem == ref.system
  }

  ghost predicate AllRead(w: World) {
    forall ref :: ref in w.jobs ==> StillReads(w, ref, w.jobs[ref])
  }

  ghost predicate Sound(w: World) {
    Good(w.store) && AllHeld(w) && AllRead(w)
  }

  ghost predicate SamePayments(s: Store, t: Store) {
    |s.payments| <= |t.payments| && forall i :: 0 <= i < |s.payments| ==> SamePayment(s.payments[i], t.payments[i])
  }

  /** The commit that concludes a job, as one of the core's. */
  function ConclusionOf(order: Order, at: Place, now: DateTime): Transaction
    requires at.Issued? && at.existing.Stored?
  {
    IssueRenewal(at.o, at.existing.i, at.existing.row, at.checkoutId, at.url, ReferenceFor(order.ref, at.existing),
                 order.provider, now)
  }

  lemma ConclusionKeeps(w: World, ref: PaymentRef, now: DateTime)
    requires Sound(w) && ref in w.jobs && w.jobs[ref].place.Issued?
    ensures var done := Concluded(w.store, w.jobs[ref].order, w.jobs[ref].place, now);
            done.Some? ==> Good(done.value) && SamePayments(w.store, done.value)
  {
    hide Good, FindOperation, Held, WritePayment, Renew, PaymentsEvolve;
    var Job(order, at) := w.jobs[ref];
    assert StillReads(w, ref, w.jobs[ref]);
    var done := Concluded(w.store, order, at, now);
    if done.Some? {
      if at.existing.Stored? {
        IssueRenewalKeepsRows(w.store, at.o, at.existing.i, at.existing.row, at.checkoutId, at.url,
                              ReferenceFor(order.ref, at.existing), order.provider, now);
        RenewalMoves(w.store, ConclusionOf(order, at, now));
        RenewedIsSame(w.store, ConclusionOf(order, at, now));
      } else {
        var made := NewCheckout(order.ref.systemPaymentId, at.checkoutId, order.ref.system, order.provider, order.value,
                                at.url, order.webhookLink, ReferenceFor(order.ref, at.existing), now).value;
        IssueCheckoutKeeps(w.store, at.o, made);
        EvolvedAreSame(w.store, done.value);
      }
    }
  }

  lemma RenewedIsSame(s: Store, t: Transaction)
    requires t.IssueRenewal? && t.i < |s.payments| && SamePayment(s.payments[t.i], t.read) && Attempt(s, t).Some?
    ensures SamePayments(s, Attempt(s, t).value)
  {
    hide PaymentClash;
  }

  lemma EvolvedAreSame(s: Store, t: Store)
    requires StoreStep(s, t)
    ensures SamePayments(s, t)
  {
    forall i | 0 <= i < |s.payments| ensures SamePayment(s.payments[i], t.payments[i]) {
      assert PaymentEvolves(s.payments[i], t.payments[i]);
    }
  }

  lemma UnmovedAreSame(s: Store, t: Store)
    requires t.payments == s.payments
    ensures SamePayments(s, t)
  {
  }

  lemma StepKeepsPayments(w: World, step: Step)
    requires Sound(w) && Enabled(w, step)
    ensures Good(Do(w, step).store) && SamePayments(w.store, Do(w, step).store)
  {
    hide Good, FindOperation, Held, SamePayments, Concluded, Apply, AllRead;
    UnmovedAreSame(w.store, w.store);
    match step
    case Foreign(t) =>
      TransactionKeeps(w.store, t);
      EvolvedAreSame(w.store, Apply(w.store, t));
    case Start(order, lands) =>
      var op := NewOperation(order, ExistingOf(w.store, order.ref));
      if FindOperation(w.store.operations, op.key).None? {
        OpenOperationKeeps(w.store, op);
        UnmovedAreSame(w.store, w.store.(operations := w.store.operations + [op]));
      }
    case Conclude(ref, _, _, now) => ConclusionKeeps(w, ref, now);
    case Recover(ref, _) =>
      var at := w.jobs[ref].place;
      if at.o < |w.store.operations| {
        OperationWriteKeeps(w.store, at.o, at.op);
        UnmovedAreSame(w.store, UpdateOperation(w.store, at.o, at.op));
      }
    case _ =>
  }

  lemma StepIsSound(w: World, step: Step)
    requires Sound(w) && Enabled(w, step)
    ensures Sound(Do(w, step))
  {
    hide Do, Enabled, Good, AllHeld, StillReads;
    var v := Do(w, step);
    StepHolds(w, step);
    StepKeepsPayments(w, step);
    forall ref | ref in v.jobs ensures StillReads(v, ref, v.jobs[ref]) {
      if ref in w.jobs { assert StillReads(w, ref, w.jobs[ref]); }
      if Acts(step, ref) { ActorReads(w, step, ref); } else {
        OthersStay(w, step, ref);
        ReadingStays(w, v, ref);
      }
    }
  }

  lemma ReadingStays(w: World, v: World, ref: PaymentRef)
    requires ref in w.jobs && ref in v.jobs && v.jobs[ref] == w.jobs[ref] && StillReads(w, ref, w.jobs[ref])
    requires SamePayments(w.store, v.store)
    ensures StillReads(v, ref, v.jobs[ref])
  {
  }

  lemma ActorReads(w: World, step: Step, ref: PaymentRef)
    requires AllHeld(w) && Enabled(w, step) && Acts(step, ref) && ref in Do(w, step).jobs
    requires ref in w.jobs ==> StillReads(w, ref, w.jobs[ref])
    requires SamePayments(w.store, Do(w, step).store)
    ensures StillReads(Do(w, step), ref, Do(w, step).jobs[ref])
  {
    hide FindOperation, FindPaymentBySystemRef, Concluded, Apply, SamePayments;
    if ref in w.jobs { HeldOp(w, ref); }
    match step
    case CallCreate(_, _) => SameReading(w.store, Do(w, step).store);
    case _ =>
  }

  lemma SameReading(s: Store, t: Store)
    requires SamePayments(s, t)
    ensures |s.payments| <= |t.payments|
  {
  }

  lemma FoundByRef(ps: seq<PaymentRow>, i: nat)
    requires PaymentKeys(ps) && i < |ps|
    ensures FindPaymentBySystemRef(ps, ps[i].systemPaymentId, ps[i].fromSystem) == Some(i)
  {
    hide FindPaymentBySystemRef;
    assert FindPaymentBySystemRef(ps, ps[i].systemPaymentId, ps[i].fromSystem).Some?;
  }

  /** A payment keeps its place. */
  lemma ExistingStays(s: Store, t: Store, ref: PaymentRef)
    requires Good(t) && SamePayments(s, t) && ExistingOf(s, ref).Stored?
    ensures ExistingOf(t, ref).Stored? && ExistingOf(t, ref).i == ExistingOf(s, ref).i
  {
    hide FindPaymentBySystemRef;
    FoundByRef(t.payments, ExistingOf(s, ref).i);
  }

  lemma ConclusionKeepsMark(w: World, step: Step, i: nat)
    requires Sound(w) && Enabled(w, step) && step.Conclude? && i < |w.store.payments|
    ensures i < |Do(w, step).store.payments| && MarkStays(w.store.payments[i], Do(w, step).store.payments[i])
  {
    hide Good, FindOperation, Held, PaymentClash, Renew, ExistingOf;
    var Job(order, at) := w.jobs[step.ref];
    if at.existing.Stored? { RenewalMoves(w.store, ConclusionOf(order, at, step.now)); }
  }

  /** A new marker is an entry: the step found the payment absent or in another
      status, or its reconciliation renewed it before it ended it again. */
  lemma MarkersAreEntries(w: World, step: Step, ref: PaymentRef)
    requires Sound(w) && Enabled(w, step)
    ensures var mark := MarkOf(Do(w, step).store, ref);
            mark.Some? && mark != MarkOf(w.store, ref) ==> Enters(w, step, ref)
  {
    hide Good, Apply, Concluded, FindOperation, FindPaymentBySystemRef, AllHeld, AllRead, MayCommit;
    var before, next := ExistingOf(w.store, ref), Do(w, step).store;
    if before.Stored? && Renewable(before.row) {
      StepKeepsPayments(w, step);
      ExistingStays(w.store, next, ref);
      if step.Foreign? { ForeignMarks(w, step.t, before.i); }
      else if step.Conclude? { ConclusionKeepsMark(w, step, before.i); }
    }
  }

  lemma ForeignMarks(w: World, t: Transaction, i: nat)
    requires MayCommit(w.store, t) && i < |w.store.payments|
    ensures i < |Apply(w.store, t).payments|
    ensures MarkStays(w.store.payments[i], Apply(w.store, t).payments[i]) || RenewsFirst(w.store, t, i)
  {
    hide Apply;
    if t.ReconcileCheckout? {
      ReconciledCheckoutMoves(w.store, t);
      assert CheckoutMovesRow(w.store, t, i, Apply(w.store, t).payments[i]);
    } else {
      TransactionMoves(w.store, t);
      assert RowMoves(w.store.payments[i], Apply(w.store, t).payments[i]);
    }
  }

  /** As many entries as markers. */
  predicate Covered(s: Store, ref: PaymentRef, t: Tally) {
    |t.markers| <= t.entries && (MarkOf(s, ref).Some? ==> MarkOf(s, ref).value in t.markers)
  }

  lemma StepCovers(w: World, step: Step, ref: PaymentRef, t: Tally)
    requires Sound(w) && Enabled(w, step) && Covered(w.store, ref, t)
    ensures Covered(Do(w, step).store, ref, Count(t, w, step, ref))
  {
    hide Do, Enabled, MarkOf, Sound, Enters, Loses;
    MarkersAreEntries(w, step, ref);
  }

  lemma {:induction false} RunCovers(w: World, steps: seq<Step>, ref: PaymentRef, t: Tally)
    requires Sound(w) && Possible(w, steps) && Covered(w.store, ref, t)
    ensures Covered(Steps(w, steps).store, ref, CountAll(t, w, steps, ref))
    decreases |steps|
  {
    hide Do, Enabled, Sound, Covered, Count;
    if steps != [] {
      StepIsSound(w, steps[0]);
      StepCovers(w, steps[0], ref, t);
      RunCovers(Do(w, steps[0]), steps[1..], ref, Count(t, w, steps[0], ref));
    }
  }

  // ---------------------------------------------------------------- the bound

  lemma SubsetIsSmaller<T>(a: set<T>, b: set<T>)
    requires a <= b
    ensures |a| <= |b|
  {
    assert b == a + (b - a);
  }

  /** The calls that created a checkout, or may have, are at most one, and one more
      for each entry into EXPIRED or CANCELED and for each outcome that was never
      recorded. */
  lemma IssuedAtMostOncePerGeneration(s: Store, steps: seq<Step>, ref: PaymentRef)
    requires Good(s) && Possible(World(s, map[]), steps)
    ensures var t := Finally(s, steps, ref); t.calls <= 1 + t.entries + t.lost
  {
    hide MarkOf, Do, Enabled, Good;
    var w := World(s, map[]);
    RunCounts(w, steps, ref, Opening(s, ref));
    RunCovers(w, steps, ref, Opening(s, ref));
    var t := Finally(s, steps, ref);
    SubsetIsSmaller(t.renewed, t.markers);
  }

  // ---------------------------------------------------------------- what is lost

  lemma LossIsOnRetry(w: World, step: Step, ref: PaymentRef, t: Tally)
    requires AllHeld(w) && JobCounted(w, t, ref) && Enabled(w, step)
    ensures Loses(t, w, step, ref) <==>
              && (step == Crash(ref) || step == Recover(ref, false))
              && Spent(t, w.jobs[ref].place.op.key)
              && Retryable(w.store.operations[w.jobs[ref].place.o])
  {
    hide FindOperation;
    if step == Crash(ref) || (step.Recover? && step.ref == ref) {
      assert Held(w, ref, w.jobs[ref]);
      FoundAgain(w, step, w.jobs[ref].place.op.key);
    }
  }

  /** In every reachable state: an outcome is lost exactly when a job that called
      ends unrecorded, by a crash or a failed recovery, on an operation that was
      already FAILED: the retry did not set it back to PENDING. */
  lemma LostExactlyOnRetry(s: Store, steps: seq<Step>, step: Step, ref: PaymentRef)
    requires Possible(World(s, map[]), steps) && Enabled(Steps(World(s, map[]), steps), step)
    ensures var w, t := Steps(World(s, map[]), steps), Finally(s, steps, ref);
            Loses(t, w, step, ref) <==>
              && (step == Crash(ref) || step == Recover(ref, false))
              && Spent(t, w.jobs[ref].place.op.key)
              && w.jobs[ref].place.o < |w.store.operations| && Retryable(w.store.operations[w.jobs[ref].place.o])
  {
    hide Loses, Retryable, Enabled, Do, Held;
    var w := Steps(World(s, map[]), steps);
    RunHolds(World(s, map[]), steps);
    RunCounts(World(s, map[]), steps, ref, Opening(s, ref));
    LossIsOnRetry(w, step, ref, Finally(s, steps, ref));
    if step == Crash(ref) || step == Recover(ref, false) { WorksOnStored(w, step, ref); }
  }

  lemma WorksOnStored(w: World, step: Step, ref: PaymentRef)
    requires AllHeld(w) && Enabled(w, step) && (step == Crash(ref) || step == Recover(ref, false))
    ensures ref in w.jobs && !w.jobs[ref].place.Answered? && w.jobs[ref].place.o < |w.store.operations|
  {
    assert Held(w, ref, w.jobs[ref]);
  }

  /** Jobs of this payment that never die and whose recoveries are committed. */
  predicate AllRecorded(steps: seq<Step>, ref: PaymentRef) {
    Crash(ref) !in steps && Recover(ref, false) !in steps
  }

  lemma {:induction false} NothingIsLost(w: World, steps: seq<Step>, ref: PaymentRef, t: Tally)
    requires AllHeld(w) && Counted(w, t, ref) && Possible(w, steps) && AllRecorded(steps, ref)
    ensures CountAll(t, w, steps, ref).lost == t.lost
    decreases |steps|
  {
    hide Do, Enabled, AllHeld, Held, Loses, Count, Balanced, SpentIsBlocked, JobCounted;
    if steps != [] {
      StepHolds(w, steps[0]);
      StepCounts(w, steps[0], ref, t);
      LossIsOnRetry(w, steps[0], ref, t);
      assert steps[0] in steps && forall step :: step in steps[1..] ==> step in steps;
      CountedWithoutLoss(t, w, steps[0], ref);
      NothingIsLost(Do(w, steps[0]), steps[1..], ref, Count(t, w, steps[0], ref));
    }
  }

  lemma CountedWithoutLoss(t: Tally, w: World, step: Step, ref: PaymentRef)
    requires Enabled(w, step) && !Loses(t, w, step, ref)
    ensures Count(t, w, step, ref).lost == t.lost
  {
    hide Do, MarkOf, Loses, Enters;
  }

  /** When every outcome is recorded: at most one call, and one more for each entry. */
  lemma IssuedAtMostOnce(s: Store, steps: seq<Step>, ref: PaymentRef)
    requires Good(s) && Possible(World(s, map[]), steps) && AllRecorded(steps, ref)
    ensures var t := Finally(s, steps, ref); t.calls <= 1 + t.entries
  {
    hide MarkOf, Do, Enabled, AllRecorded, Good;
    IssuedAtMostOncePerGeneration(s, steps, ref);
    NothingIsLost(World(s, map[]), steps, ref, Opening(s, ref));
  }

  // ---------------------------------------------------------------- one generation issued twice

  /** The step is a call for this generation that creates a checkout, or may. */
  predicate CallsFor(w: World, step: Step, ref: PaymentRef, key: OperationKey)
    requires Enabled(w, step)
  {
    step.CallCreate? && step.ref == ref && MayCreate(step.outcome) && w.jobs[ref].place.op.key == key
  }

  predicate LosesFor(t: Tally, w: World, step: Step, ref: PaymentRef, key: OperationKey)
    requires Enabled(w, step)
  {
    Loses(t, w, step, ref) && w.jobs[ref].place.op.key == key
  }

  function CallsOf(w: World, steps: seq<Step>, ref: PaymentRef, key: OperationKey): nat
    requires Possible(w, steps)
    decreases |steps|
  {
    if steps == [] then 0 else One(CallsFor(w, steps[0], ref, key)) + CallsOf(Do(w, steps[0]), steps[1..], ref, key)
  }

  /** Somewhere the generation's outcome is lost, and it is called for again later. */
  predicate CalledAfterLoss(t: Tally, w: World, steps: seq<Step>, ref: PaymentRef, key: OperationKey)
    requires Possible(w, steps)
    decreases |steps|
  {
    steps != [] &&
    ((LosesFor(t, w, steps[0], ref, key) && CallsOf(Do(w, steps[0]), steps[1..], ref, key) > 0)
     || CalledAfterLoss(Count(t, w, steps[0], ref), Do(w, steps[0]), steps[1..], ref, key))
  }

  lemma SpentAfter(t: Tally, w: World, step: Step, ref: PaymentRef, key: OperationKey)
    requires AllHeld(w) && Enabled(w, step) && JobCounted(w, t, ref) && KeyOf(ref, key)
    ensures CallsFor(w, step, ref, key) ==> !Spent(t, key) && !LosesFor(t, w, step, ref, key)
    ensures LosesFor(t, w, step, ref, key) ==> Spent(t, key)
    ensures Spent(Count(t, w, step, ref), key)
            == (CallsFor(w, step, ref, key) || (Spent(t, key) && !LosesFor(t, w, step, ref, key)))
  {
    hide Do, MarkOf, Enters, FindOperation, Retryable, MayCreate;
    if ref in w.jobs { HeldOp(w, ref); }
  }

  lemma {:induction false} TwiceIsAfterLoss(t: Tally, w: World, steps: seq<Step>, ref: PaymentRef, key: OperationKey)
    requires AllHeld(w) && Counted(w, t, ref) && Possible(w, steps) && KeyOf(ref, key)
    ensures One(Spent(t, key)) + CallsOf(w, steps, ref, key) >= 2 <==> CalledAfterLoss(t, w, steps, ref, key)
    decreases |steps|
  {
    hide Do, Enabled, AllHeld, Count, Spent, CallsFor, LosesFor, SpentIsBlocked, JobCounted, MarkOf, Balanced;
    if steps != [] {
      StepHolds(w, steps[0]);
      StepCounts(w, steps[0], ref, t);
      SpentAfter(t, w, steps[0], ref, key);
      TwiceIsAfterLoss(Count(t, w, steps[0], ref), Do(w, steps[0]), steps[1..], ref, key);
    }
  }

  /** Over any run, a generation is issued twice if and only if its outcome was
      lost and it was called for again. */
  lemma IssuedTwiceExactly(s: Store, steps: seq<Step>, ref: PaymentRef, key: OperationKey)
    requires Possible(World(s, map[]), steps) && KeyOf(ref, key)
    ensures CallsOf(World(s, map[]), steps, ref, key) >= 2
            <==> CalledAfterLoss(Opening(s, ref), World(s, map[]), steps, ref, key)
  {
    hide CallsOf, CalledAfterLoss;
    TwiceIsAfterLoss(Opening(s, ref), World(s, map[]), steps, ref, key);
  }

  // ---------------------------------------------------------------- the loss is real

  function OnlyOperation(op: OperationRow): Store {
    Store([], [], [op], map[], [])
  }

  function AloneAt(op: OperationRow, order: Order, place: Place): World {
    World(OnlyOperation(op), map[order.ref := Job(order, place)])
  }

  /** A first call that failed for certain, a retry that created a checkout and
      then died, and a second retry that creates another. */
  function DoubleIssue(order: Order): seq<Step> {
    [Start(order, true), CallCreate(order.ref, Raised(StatusError(Some(400), ""))), Recover(order.ref, true)]
    + RetryThatDies(order) + RetryThatDies(order)
  }

  function RetryThatDies(order: Order): seq<Step> {
    [Start(order, true), CallCreate(order.ref, Created("a", "")), Crash(order.ref)]
  }

  lemma UnfoldThree(t: Tally, w: World, a: Step, b: Step, c: Step, rest: seq<Step>, ref: PaymentRef)
    requires Enabled(w, a) && Enabled(Do(w, a), b) && Enabled(Do(Do(w, a), b), c)
    ensures var v := Do(Do(Do(w, a), b), c);
            var u := Count(Count(Count(t, w, a, ref), Do(w, a), b, ref), Do(Do(w, a), b), c, ref);
            Possible(v, rest) ==>
              Possible(w, [a, b, c] + rest) && CountAll(t, w, [a, b, c] + rest, ref) == CountAll(u, v, rest, ref)
  {
    hide Do, Enabled, Count;
    UnfoldOne(t, w, a, [b, c] + rest, ref);
    UnfoldOne(Count(t, w, a, ref), Do(w, a), b, [c] + rest, ref);
    UnfoldOne(Count(Count(t, w, a, ref), Do(w, a), b, ref), Do(Do(w, a), b), c, rest, ref);
    assert [a, b, c] + rest == [a] + ([b, c] + rest) && [b, c] + rest == [b] + ([c] + rest);
  }

  lemma UnfoldOne(t: Tally, w: World, a: Step, rest: seq<Step>, ref: PaymentRef)
    requires Enabled(w, a)
    ensures Possible(Do(w, a), rest) ==>
              Possible(w, [a] + rest) && CountAll(t, w, [a] + rest, ref) == CountAll(Count(t, w, a, ref), Do(w, a), rest, ref)
  {
    hide Do, Enabled, Count;
    assert ([a] + rest)[1..] == rest;
  }

  /** What such a retry does, step by step, and what is counted of it. */
  lemma RetryCounts(order: Order, op: OperationRow, answer: Answer, t: Tally)
    requires op.key == CreateCheckoutKey(order.ref.system, order.ref.systemPaymentId) && Retryable(op)
    ensures var w, ref, steps := AloneAt(op, order, Answered(answer)), order.ref, RetryThatDies(order);
            var v, u := AloneAt(op, order, Ready(0, op, Nothing)), AloneAt(op, order, Issued(0, op, Nothing, "a", ""));
            && Do(w, steps[0]) == v && Do(v, steps[1]) == u && Do(u, steps[2]) == AloneAt(op, order, Answered(Crashed))
            && Count(t, w, steps[0], ref) == t && Count(t, v, steps[1], ref) == t.(calls := t.calls + 1, first := true)
  {
  }

  lemma RetryLoses(order: Order, op: OperationRow, t: Tally)
    requires op.key == CreateCheckoutKey(order.ref.system, order.ref.systemPaymentId) && Retryable(op) && t.first
    ensures var u, crash := AloneAt(op, order, Issued(0, op, Nothing, "a", "")), Step.Crash(order.ref);
            Enabled(u, crash) && Count(t, u, crash, order.ref) == t.(first := false, lost := t.lost + 1)
  {
    var u := AloneAt(op, order, Issued(0, op, Nothing, "a", ""));
    assert Loses(t, u, Step.Crash(order.ref), order.ref);
  }

  lemma DyingRetry(order: Order, op: OperationRow, answer: Answer, t: Tally, rest: seq<Step>)
    requires op.key == CreateCheckoutKey(order.ref.system, order.ref.systemPaymentId) && Retryable(op)
    requires Possible(AloneAt(op, order, Answered(Crashed)), rest)
    ensures var w, ref := AloneAt(op, order, Answered(answer)), order.ref;
            && Possible(w, RetryThatDies(order) + rest)
            && CountAll(t, w, RetryThatDies(order) + rest, ref)
               == CountAll(t.(calls := t.calls + 1, first := false, lost := t.lost + 1),
                           AloneAt(op, order, Answered(Crashed)), rest, ref)
  {
    hide CountAll, Possible, Count, Do;
    var w, ref := AloneAt(op, order, Answered(answer)), order.ref;
    var steps := RetryThatDies(order);
    RetryCounts(order, op, answer, t);
    RetryLoses(order, op, t.(calls := t.calls + 1, first := true));
    UnfoldThree(t, w, steps[0], steps[1], steps[2], rest, ref);
  }

  lemma FirstCallFails(order: Order)
    ensures var s, ref, steps := Store([], [], [], map[], []), order.ref, DoubleIssue(order);
            var op := NewOperation(order, Nothing);
            var w, called := World(s, map[]), AloneAt(op, order, Ready(0, op, Nothing));
            var failing := AloneAt(op, order, Recovering(0, Fail(op, "")));
            && Do(w, steps[0]) == called && Do(called, steps[1]) == failing
            && Do(failing, steps[2]) == AloneAt(Fail(op, ""), order, Answered(FailedNow))
            && Opening(s, ref) == Tally(0, 0, 0, false, {}, {})
            && Count(Opening(s, ref), w, steps[0], ref) == Opening(s, ref)
            && Count(Opening(s, ref), called, steps[1], ref) == Opening(s, ref)
            && Count(Opening(s, ref), failing, steps[2], ref) == Opening(s, ref)
  {
    hide Apply, Concluded, Spend, Lose, IsUncertain;
    CertainFailure();
  }

  lemma CertainFailure()
    ensures !IsUncertain(StatusError(Some(400), ""))
  {
  }

  /** With a loss, one generation is issued twice. */
  lemma RetryMayIssueTwice(order: Order)
    ensures var s := Store([], [], [], map[], []);
            && Possible(World(s, map[]), DoubleIssue(order))
            && var t := Finally(s, DoubleIssue(order), order.ref); t.calls == 2 && t.entries == 0 && t.lost == 2
  {
    hide CountAll, Possible, Opening, Count, Do;
    var s, ref, steps := Store([], [], [], map[], []), order.ref, DoubleIssue(order);
    var failed := Fail(NewOperation(order, Nothing), "");
    var w, t := World(s, map[]), Opening(s, ref);
    FirstCallFails(order);
    var retry := RetryThatDies(order);
    RunsOut(AloneAt(failed, order, Answered(Crashed)), t.(calls := 2, lost := 2), ref);
    DyingRetry(order, failed, Crashed, t.(calls := 1, lost := 1), []);
    DyingRetry(order, failed, FailedNow, t, retry + []);
    assert retry + [] == retry && retry + (retry + []) == retry + retry;
    UnfoldThree(t, w, steps[0], steps[1], steps[2], retry + retry, ref);
    assert steps == [steps[0], steps[1], steps[2]] + (retry + retry);
  }

  lemma RunsOut(w: World, t: Tally, ref: PaymentRef)
    ensures Possible(w, []) && CountAll(t, w, [], ref) == t
  {
  }
}
