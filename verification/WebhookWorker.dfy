/** One try of the `process_webhook` job: the lock, the service, the delivery. */
module WebhookWorker {
  import opened BillingCalendar
  import opened Entities
  import opened Storage
  import opened WebhookRules
  import opened WebhookService
  import opened TransactionLaws
  import opened Transactions
  import opened RunLaws
  import opened NoticeLaws
  import opened DeliveryLaws
  import opened WebhookLock

  lemma {:induction false} RunGrows(s: State, steps: seq<Step>, step: Step, maxTries: nat)
    requires Possible(s, steps, maxTries) && NoneFailBeforeEntry(s, steps, maxTries)
    requires Enabled(Steps(s, steps, maxTries), step, maxTries)
    requires !FailsBeforeEntry(Steps(s, steps, maxTries), step, maxTries)
    ensures Possible(s, steps + [step], maxTries) && NoneFailBeforeEntry(s, steps + [step], maxTries)
    ensures Steps(s, steps + [step], maxTries) == Do(Steps(s, steps, maxTries), step, maxTries)
    decreases |steps|
  {
    hide Do, Enabled, FailsBeforeEntry;
    if steps == [] {
      assert [step][1..] == [];
    } else {
      assert (steps + [step])[1..] == steps[1..] + [step];
      RunGrows(Do(s, steps[0], maxTries), steps[1..], step, maxTries);
    }
  }

  /** The key of one event's lock. */
  class Redis {
    var lock: Option<JobId>

    constructor ()
      ensures lock == None
    {
      lock := None;
    }

    method SetNx(value: JobId) returns (created: bool)
      modifies this
      ensures created == old(lock).None? && lock == if created then Some(value) else old(lock)
    {
      created := lock.None?;
      if created { lock := Some(value); }
    }

    method Delete()
      modifies this
      ensures lock == None
    {
      lock := None;
    }
  }

  /** What a try reports: done, duplicate, dead-lettered, or to be retried. */
  datatype Outcome = Success | Duplicate | DeadLettered | Retry

  class Worker {
    const redis: Redis
    const uow: UnitOfWork
    const maxTries: nat
    var jobs: map<JobId, Place>
    ghost var steps: seq<Step>

    constructor (redis: Redis, uow: UnitOfWork, maxTries: nat)
      requires redis.lock == None
      ensures this.redis == redis && this.uow == uow && this.maxTries == maxTries && jobs == map[] && Traced()
    {
      this.redis, this.uow, this.maxTries, jobs, steps := redis, uow, maxTries, map[], [];
    }

    function Now(): State
      reads this, redis
    {
      State(redis.lock, jobs)
    }

    /** The present is what the steps so far made of an event nobody has touched. */
    ghost predicate Traced()
      reads this, redis
    {
      && Possible(State(None, map[]), steps, maxTries)
      && NoneFailBeforeEntry(State(None, map[]), steps, maxTries)
      && Steps(State(None, map[]), steps, maxTries) == Now()
    }

    /** Records a step that this code has just taken. */
    ghost method Record(before: State, step: Step)
      requires Possible(State(None, map[]), steps, maxTries)
      requires NoneFailBeforeEntry(State(None, map[]), steps, maxTries)
      requires Steps(State(None, map[]), steps, maxTries) == before
      requires Enabled(before, step, maxTries) && !FailsBeforeEntry(before, step, maxTries) && Do(before, step, maxTries) == Now()
      modifies this`steps
      ensures Traced() && steps == old(steps) + [step]
    {
      RunGrows(State(None, map[]), steps, step, maxTries);
      steps := steps + [step];
    }

    /** An await: jobs with the same event take steps of their own. */
    method Await(job: JobId)
      requires Traced() && job in jobs
      modifies this`jobs, this`steps, redis
      ensures Traced() && old(steps) <= steps && job in jobs && jobs[job] == old(jobs[job])
    {
      hide NoneFailBeforeEntry, Possible, Steps;
      var n: nat := *;
      while n > 0
        invariant Traced() && old(steps) <= steps && job in jobs && jobs[job] == old(jobs[job])
      {
        var step: Step := *;
        if step.job != job && Enabled(Now(), step, maxTries) && !FailsBeforeEntry(Now(), step, maxTries) {
          ghost var before := Now();
          var after := Do(Now(), step, maxTries);
          redis.lock, jobs := after.lock, after.jobs;
          Record(before, step);
        }
        n := n - 1;
      }
    }

    /** Commits of other events. */
    method Others() returns (ghost ts: seq<Transaction>)
      requires Good(uow.committed) && uow.working == uow.committed
      modifies uow`committed, uow`working
      ensures Harmless(old(uow.committed), ts) && uow.working == uow.committed == Run(old(uow.committed), ts)
    {
      hide Good, Apply, Harmless, Run;
      ts := [];
      NothingIsHarmless(uow.committed);
      var n: nat := *;
      while n > 0
        invariant Harmless(old(uow.committed), ts) && uow.working == uow.committed == Run(old(uow.committed), ts)
      {
        var t: Transaction := *;
        if RenewsOwnRow(uow.committed, t) && SeesPaidDate(uow.committed, t) {
          HarmlessGrows(old(uow.committed), ts, t);
          ts := ts + [t];
          uow.committed := Apply(uow.committed, t);
          uow.working := uow.committed;
        }
        n := n - 1;
      }
    }

    /** The section, which is this job's alone: the webhook's own commit, and then
        its delivery's, with other events committing between the two. */
    method Section(ghost job: JobId, p: Payload)
      returns (outcome: Outcome, ghost now: DateTime, ghost between: seq<Transaction>)
      requires Alone(Now(), job)
      requires Good(uow.committed) && uow.working == uow.committed
      modifies uow`committed, uow`working
      ensures uow.working == uow.committed || outcome == DeadLettered
      ensures Harmless(After(old(uow.committed), p, now), between)
      ensures outcome == Success ==> uow.committed == Told(old(uow.committed), p, now, between)
      ensures outcome == Success ==> NoticeDelivered(old(uow.committed), p, now, between, uow.committed)
      ensures outcome == DeadLettered ==> uow.committed == old(uow.committed) && Handle(old(uow.committed), p, now).Raise?
      ensures outcome == Retry ==> uow.committed == old(uow.committed)
                                   || uow.committed == Run(After(old(uow.committed), p, now), between)
      ensures outcome == Retry ==> uow.mayFail || Rivaled(p, uow.rivals)
      ensures outcome != Duplicate
    {
      hide Handle, BuildDelivery, Good, Run, Harmless, ToldOnce;
      var clock: DateTime := *;
      now, between := clock, [];
      ghost var before := uow.committed;
      GoodIsValid(before);
      WebhookKeeps(before, p, clock);
      NothingIsHarmless(After(before, p, clock));
      var service := new ProcessWebhookService(uow);
      var answer := service.Execute(p, clock);
      if answer.Raised? { return DeadLettered, clock, []; }
      if answer.NotCommitted? {
        uow.Rollback();
        return Retry, clock, [];
      }
      if answer.notice.Some? {
        between := Others();
        NoticeStillBuilds(before, p, clock, between);
        var landed := Tell(answer.notice.value);
        if !landed { return Retry, clock, between; }
      }
      outcome := Success;
    }

    /** Records the delivery unless one with its key exists. */
    method Tell(notice: Notice) returns (landed: bool)
      requires BuildsIn(uow.working, notice) && uow.working == uow.committed
      modifies uow`committed, uow`working
      ensures uow.working == uow.committed
      ensures uow.committed == if landed then WebhookRules.Record(old(uow.committed), BuildDelivery(old(uow.committed), notice))
                               else old(uow.committed)
      ensures landed ==> ToldOnce(old(uow.committed), notice, uow.committed)
      ensures !landed ==> uow.mayFail
    {
      hide ToldOnce;
      RecordTellsOnce(uow.committed, notice);
      landed := true;
      var delivery := BuildDelivery(uow.working, notice);
      if delivery.Draft? && !HasDelivery(uow.working.deliveries, delivery.row.key) {
        uow.working := uow.working.(deliveries := uow.working.deliveries + [delivery.row]);
        landed := uow.TryCommit();
        if !landed { uow.Rollback(); }
      }
    }

    /** SET NX, and GET when it fails: whether this try gets in. */
    method Acquire(job: JobId) returns (inside: bool)
      requires Traced() && job in jobs && jobs[job].Between? && jobs[job].nextTry <= maxTries
      modifies this`jobs, this`steps, redis
      ensures Traced() && old(steps) <= steps && job in jobs
      ensures jobs[job] == if inside then Inside(old(jobs[job]).nextTry) else Over
    {
      hide NoneFailBeforeEntry, Possible, Steps;
      ghost var before := Now();
      var Between(n, held) := jobs[job];
      inside := redis.SetNx(job);
      jobs := jobs[job := if inside then Inside(n) else Reading(n, held)];
      Record(before, SetNx(job));
      if inside { return; }
      Await(job);
      before := Now();
      inside := redis.lock == Some(job);
      jobs := jobs[job := if inside then Inside(n) else Over];
      Record(before, Get(job));
    }

    /** The end of a try: the lock is deleted only when no try can follow. */
    method Finish(job: JobId, how: Leaving)
      requires Traced() && job in jobs && jobs[job].Inside? && how != Died
      modifies this`jobs, this`steps, redis
      ensures Traced() && old(steps) <= steps && job in jobs
      ensures var n := old(jobs[job]).try;
              jobs[job] == if how == Leaving.Raised && n < maxTries then Between(n + 1, true) else Over
    {
      hide NoneFailBeforeEntry, Possible, Steps;
      ghost var before := Now();
      var Inside(n) := jobs[job];
      var release := how == Terminal || n >= maxTries;
      jobs := jobs[job := if release then Releasing(true) else Between(n + 1, true)];
      Record(before, Leave(job, how));
      if release {
        Await(job);
        before := Now();
        redis.Delete();
        jobs := jobs[job := Over];
        Record(before, Delete(job));
      }
    }

    /** One try. The section is entered as `Section` demands, alone and holding the
        lock; the try leaves the webhook's commit and its delivery, the commit
        alone, or nothing. */
    method Try(job: JobId, p: Payload) returns (outcome: Outcome, ghost now: DateTime, ghost between: seq<Transaction>)
      requires Traced() && job in jobs && jobs[job].Between? && jobs[job].nextTry <= maxTries
      requires Good(uow.committed) && uow.working == uow.committed
      modifies this`jobs, this`steps, redis, uow`committed, uow`working
      ensures Traced() && old(steps) <= steps && job in jobs
      ensures Harmless(After(old(uow.committed), p, now), between)
      ensures outcome == Success ==> uow.committed == Told(old(uow.committed), p, now, between)
      ensures outcome == Success ==> NoticeDelivered(old(uow.committed), p, now, between, uow.committed)
      ensures outcome == Retry ==> uow.committed == old(uow.committed)
                                   || uow.committed == Run(After(old(uow.committed), p, now), between)
      ensures outcome == Retry ==> uow.mayFail || Rivaled(p, uow.rivals)
      ensures outcome in {Duplicate, DeadLettered} ==> uow.committed == old(uow.committed)
      ensures outcome == DeadLettered ==> Handle(old(uow.committed), p, now).Raise?
      ensures jobs[job] == if outcome == Retry && old(jobs[job]).nextTry < maxTries
                           then Between(old(jobs[job]).nextTry + 1, true) else Over
    {
      hide NoneFailBeforeEntry, Possible, Steps, Good, Told, After, Handle, Harmless, Run, NoticeDelivered;
      now, between := *, [];
      NothingIsHarmless(After(uow.committed, p, now));
      var inside := Acquire(job);
      if !inside { return Duplicate, now, []; }
      Await(job);
      RunKeepsLock(State(None, map[]), steps, maxTries);
      OwnerIsAlone(Now(), job);
      var failed: bool := *;
      if failed && uow.mayFail {
        outcome := Retry;
      } else {
        outcome, now, between := Section(job, p);
      }
      Await(job);
      Finish(job, if outcome == Retry then Leaving.Raised else Terminal);
    }
  }

  /** The webhook's notice, if it has one, told once of the rows as they are when its
      delivery is built; without one, nobody is told. */
  predicate NoticeDelivered(s: Store, p: Payload, now: DateTime, between: seq<Transaction>, t: Store) {
    var r, reached := Handle(s, p, now), Run(After(s, p, now), between);
    if r.Commit? && r.notice.Some? then NoticeFits(reached, r.notice.value) && ToldOnce(reached, r.notice.value, t)
    else between == [] && t == reached
  }

  /** Another session has committed the webhook's event meanwhile. */
  predicate Rivaled(p: Payload, rivals: set<string>) {
    IdOf(p).Some? && IdOf(p).value in rivals
  }

  lemma NothingIsHarmless(s: Store)
    ensures Harmless(s, []) && Run(s, []) == s
  {
  }

  /** The job is inside, the lock is its own, and no other job is inside. */
  ghost predicate Alone(s: State, job: JobId) {
    && job in s.jobs && s.jobs[job].Inside? && s.lock == Some(job)
    && forall other :: other in s.jobs && s.jobs[other].Inside? ==> other == job
  }

  lemma OwnerIsAlone(s: State, job: JobId)
    requires Locked(s) && job in s.jobs && s.jobs[job].Inside?
    ensures Alone(s, job)
  {
    assert Owns(s.jobs[job]);
    forall other | other in s.jobs && s.jobs[other].Inside? ensures other == job {
      assert Owns(s.jobs[other]);
    }
  }

  lemma GoodIsValid(s: Store)
    requires Good(s)
    ensures Valid(s)
  {
  }
}
