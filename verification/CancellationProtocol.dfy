/** Cancelling at the gateway, as a machine: cancel jobs, at most one at a time
    for a subscription, each cut at its awaits, among everything else that
    commits and a gateway that anyone may use. */
module CancellationProtocol {
  import opened BillingCalendar
  import opened Entities
  import opened Storage
  import opened WebhookRules
  import opened Transactions
  import opened TransactionLaws

  datatype Request = Request(subscription: nat, system: System, reason: string, job: string)

  /** How `execute` ends. `Refused` is a DomainError that leaves no trace,
      `Broken` an exception of the recovery itself. */
  datatype Answer = CanceledNow | NotFound | Refused | GatewayFailed | SetAsideNow | Broken | Crashed

  /** Where a job stands between two awaits, with the operation it holds in memory. */
  datatype Place =
    | Begun(o: nat, op: OperationRow)
    | Finishing(o: nat, op: OperationRow, guarded: bool)
    | Live(o: nat, op: OperationRow)
    | Called(o: nat, op: OperationRow, reference: string)
    | Failing(o: nat, op: OperationRow, message: string)
    | SettingAside(o: nat, op: OperationRow, reference: string, message: string)
    | Answered(answer: Answer)
    | Notified

  datatype Job = Job(request: Request, place: Place)

  /** `canceled` are the subscriptions canceled at the gateway, `calls` the
      cancel calls of this service that took effect there, `owed` the notices of
      webhooks whose delivery may still be recorded. */
  datatype World = World(store: Store, canceled: set<string>, calls: seq<string>, jobs: map<nat, Job>, owed: set<Notice>)

  datatype StatusOutcome = SaysCanceled | SaysLive | StatusRefused | StatusBroken(message: string)
  datatype CallOutcome =
    | CallAccepted(reference: string) | CallRefused(effective: bool) | CallBroken(message: string, effective: bool)
  datatype CommitOutcome = Lands | FailsUnmarked(message: string) | FailsMarked(message: string)

  datatype Step =
    | Elsewhere(id: string)
    | Foreign(t: Transaction)
    | Start(request: Request, now: DateTime, lands: bool)
    | Verify(k: nat, status: StatusOutcome)
    | CallCancel(k: nat, call: CallOutcome)
    | Finish(k: nat, commit: CommitOutcome, now: DateTime)
    | Recover(k: nat, lands: bool)
    | Notify(k: nat, lands: bool)
    | Crash(k: nat)

  function JobOf(step: Step): Option<nat> {
    match step
    case Elsewhere(_) => None
    case Foreign(_) => None
    case Start(r, _, _) => Some(r.subscription)
    case Verify(k, _) => Some(k)
    case CallCancel(k, _) => Some(k)
    case Finish(k, _, _) => Some(k)
    case Recover(k, _) => Some(k)
    case Notify(k, _) => Some(k)
    case Crash(k) => Some(k)
  }

  /** Whether the gateway canceled, whatever it answered. */
  predicate Effective(call: CallOutcome) {
    match call
    case CallAccepted(_) => true
    case CallRefused(effective) => effective
    case CallBroken(_, effective) => effective
  }

  predicate Over(place: Place) {
    place.Answered? || place.Notified?
  }

  predicate IsCancel(s: Store, o: nat) {
    o < |s.operations| && s.operations[o].key.CancelSubscriptionKey?
  }

  /** What may commit beside the cancel jobs: webhooks and reconciliation that
      tell the truth about cancellations, deliveries that are owed, operations of
      other kinds, and renewals of a payment, however long ago it was read. */
  predicate MayCommit(w: World, t: Transaction) {
    match t
    case Webhook(p, _) => p.event in {SubscriptionDeleted, SubscriptionInactivated} ==> p.subscription in w.canceled
    case RecordNotice(n) => n in w.owed
    case OpenOperation(row) => !row.key.CancelSubscriptionKey?
    case BeginCancellation(_, _, _, _, _) => false
    case FinishCancellation(_, _, _, _, _, _) => false
    case CloseOperation(o, _) => !IsCancel(w.store, o)
    case IssueCheckout(o, _) => !IsCancel(w.store, o)
    case IssueRenewal(o, _, _, _, _, _, _, _) => !IsCancel(w.store, o) && RenewsOwnRow(w.store, t)
    case BindSubscription(o, _, _) => !IsCancel(w.store, o)
    case ReconcileCreation(o, remote) =>
      o < |w.store.operations| && remote == RemoteCanceled ==> w.store.operations[o].gatewayReference in w.canceled
    case _ => true
  }

  /** The gateway's id of subscription `k`. */
  function GatewayId(w: World, k: nat): string {
    if k < |w.store.subscriptions| then w.store.subscriptions[k].gatewaySubscriptionId else ""
  }

  predicate Enabled(w: World, step: Step) {
    match step
    case Elsewhere(_) => true
    case Foreign(t) => MayCommit(w, t)
    case Start(r, _, _) => r.subscription in w.jobs ==> Over(w.jobs[r.subscription].place)
    case Verify(k, status) =>
      && k in w.jobs && w.jobs[k].place.Begun?
      && (status == SaysCanceled ==> GatewayId(w, k) in w.canceled)
      && (status == SaysLive ==> GatewayId(w, k) !in w.canceled)
    case CallCancel(k, _) => k in w.jobs && w.jobs[k].place.Live?
    case Finish(k, _, _) => k in w.jobs && (w.jobs[k].place.Finishing? || w.jobs[k].place.Called?)
    case Recover(k, _) => k in w.jobs && (w.jobs[k].place.Failing? || w.jobs[k].place.SettingAside?)
    case Notify(k, _) => k in w.jobs && w.jobs[k].place == Answered(CanceledNow)
    case Crash(k) => k in w.jobs && !w.jobs[k].place.Notified?
  }

  // ---------------------------------------------------------------- what a step does

  function Moved(w: World, k: nat, request: Request, place: Place): World {
    w.(jobs := w.jobs[k := Job(request, place)])
  }

  /** `execute` up to its first commit. */
  function DoStart(w: World, r: Request, now: DateTime, lands: bool): World {
    var s, k := w.store, r.subscription;
    if k >= |s.subscriptions| || s.subscriptions[k].fromSystem != r.system then Moved(w, k, r, Answered(NotFound))
    else if s.subscriptions[k].status == Ended then Moved(w, k, r, Answered(CanceledNow))
    else
      var open := FindOperation(s.operations, CancelSubscriptionKey(r.system, k));
      if open.Some? && s.operations[open.value].status == Completed then
        Moved(w, k, r, Finishing(open.value, s.operations[open.value], false))
      else
        var begun := DoBeginCancellation(s, k, r.system, r.reason, r.job, now);
        if begun.None? then Moved(w, k, r, Answered(Refused))
        else if !lands then Moved(w, k, r, Answered(Broken))
        else
          var o := Or(open, |s.operations|);
          Moved(w.(store := begun.value), k, r, Begun(o, begun.value.operations[o]))
  }

  function DoVerify(w: World, k: nat, status: StatusOutcome): World
    requires Enabled(w, Verify(k, status))
  {
    var Job(r, Begun(o, op)) := w.jobs[k];
    match status
    case SaysCanceled => Moved(w, k, r, Finishing(o, op, true))
    case SaysLive => Moved(w, k, r, Live(o, op))
    case StatusRefused => Moved(w, k, r, Answered(Refused))
    case StatusBroken(message) => Moved(w, k, r, Failing(o, op, message))
  }

  /** The gateway canceled the subscription because this service asked. */
  function CanceledByCall(w: World, id: string): World {
    w.(canceled := w.canceled + {id}, calls := w.calls + [id])
  }

  function DoCall(w: World, k: nat, call: CallOutcome): World
    requires Enabled(w, CallCancel(k, call))
  {
    var Job(r, Live(o, op)) := w.jobs[k];
    var id := GatewayId(w, k);
    match call
    case CallAccepted(reference) =>
      Moved(CanceledByCall(w, id), k, r, Called(o, op, if reference == "" then id else reference))
    case CallRefused(effective) => Moved(if effective then CanceledByCall(w, id) else w, k, r, Answered(Refused))
    case CallBroken(message, effective) =>
      Moved(if effective then CanceledByCall(w, id) else w, k, r, Failing(o, op, message))
  }

  /** The operation in memory once the exception is raised. */
  function InMemory(op: OperationRow, reference: string, commit: CommitOutcome): OperationRow {
    if commit.FailsMarked? then Or(Complete(op, reference), op) else op
  }

  /** `_finalize_cancellation`, or the block after the gateway's cancel call. */
  function DoFinish(w: World, k: nat, commit: CommitOutcome, now: DateTime): World
    requires Enabled(w, Finish(k, commit, now))
  {
    var Job(r, at) := w.jobs[k];
    var reference := if at.Called? then at.reference else GatewayId(w, k);
    var done := DoFinishCancellation(w.store, k, at.o, reference, r.reason, r.job, now);
    if commit.Lands? && done.Some? then Moved(w.(store := done.value), k, r, Answered(CanceledNow))
    else
      var message := if commit.Lands? then "GatewayOperation precisa de gateway_reference ao concluir." else commit.message;
      var op := InMemory(at.op, reference, commit);
      if at.Called? then Moved(w, k, r, SettingAside(at.o, op, reference, message))
      else if commit.Lands? || !at.guarded then Moved(w, k, r, Answered(if commit.Lands? then Refused else Broken))
      else Moved(w, k, r, Failing(at.o, op, message))
  }

  function DoRecover(w: World, k: nat, lands: bool): World
    requires Enabled(w, Recover(k, lands))
  {
    var Job(r, at) := w.jobs[k];
    if !lands || at.o >= |w.store.operations| then Moved(w, k, r, Answered(Broken))
    else if at.Failing? then
      Moved(w.(store := UpdateOperation(w.store, at.o, Fail(at.op, at.message))), k, r, Answered(GatewayFailed))
    else
      Moved(w.(store := UpdateOperation(w.store, at.o, SetAside(at.op, at.reference, at.message))), k, r,
            Answered(SetAsideNow))
  }

  /** The worker's delivery, once `execute` has answered. */
  function DoNotify(w: World, k: nat, lands: bool): World
    requires Enabled(w, Notify(k, lands))
  {
    if !lands then Moved(w, k, w.jobs[k].request, Answered(Broken))
    else if k >= |w.store.subscriptions| then w
    else Moved(w.(store := Record(w.store, BuildDelivery(w.store, InactivationNotice(k)))), k, w.jobs[k].request, Notified)
  }

  /** The notice a webhook's commit leaves to be delivered. */
  function Owes(s: Store, t: Transaction): set<Notice> {
    if t.Webhook? then
      var reply := Handle(s, t.payload, t.now);
      if reply.Commit? && reply.notice.Some? then {reply.notice.value} else {}
    else {}
  }

  function Do(w: World, step: Step): World
    requires Enabled(w, step)
  {
    match step
    case Elsewhere(id) => w.(canceled := w.canceled + {id})
    case Foreign(t) => w.(store := Apply(w.store, t), owed := w.owed + Owes(w.store, t))
    case Start(r, now, lands) => DoStart(w, r, now, lands)
    case Verify(k, status) => DoVerify(w, k, status)
    case CallCancel(k, call) => DoCall(w, k, call)
    case Finish(k, commit, now) => DoFinish(w, k, commit, now)
    case Recover(k, lands) => DoRecover(w, k, lands)
    case Notify(k, lands) => DoNotify(w, k, lands)
    case Crash(k) => Moved(w, k, w.jobs[k].request, Answered(Crashed))
  }

  predicate Possible(w: World, steps: seq<Step>)
    decreases |steps|
  {
    steps == [] || (Enabled(w, steps[0]) && Possible(Do(w, steps[0]), steps[1..]))
  }

  function Steps(w: World, steps: seq<Step>): World
    requires Possible(w, steps)
    decreases |steps|
  {
    if steps == [] then w else Steps(Do(w, steps[0]), steps[1..])
  }
}
