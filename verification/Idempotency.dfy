/** Requests that share one idempotency key: the key's record in Redis, and each
    request's SET NX, GET, enqueue and save as separate steps. */
module Idempotency {
  import opened Entities

  type Hash = string
  type JobId = nat
  type RequestId = nat

  datatype KeyRecord = KeyRecord(hash: Hash, job: Option<JobId>)

  /** Why a request is refused: another body, or the first is still under way. */
  datatype Conflict = OtherBody | UnderWay

  datatype Place =
    | Arrived
    | Looking
    | Enqueuing
    | Saving(job: JobId)
    | Accepted(job: JobId)
    | Refused(conflict: Conflict)
    | Dead

  datatype Request = Request(hash: Hash, place: Place)

  datatype State = State(stored: Option<KeyRecord>, requests: map<RequestId, Request>, enqueued: seq<JobId>)

  datatype Step =
    | Arrive(r: RequestId, hash: Hash)
    | SetNx(r: RequestId)
    | Get(r: RequestId)
    | Enqueue(r: RequestId, job: JobId)
    | Save(r: RequestId)
    | Die(r: RequestId)

  predicate At(s: State, r: RequestId, place: Place) {
    r in s.requests && s.requests[r].place == place
  }

  /** Job ids are never reused. */
  predicate Enabled(s: State, step: Step) {
    match step
    case Arrive(r, _) => r !in s.requests
    case SetNx(r) => At(s, r, Arrived)
    case Get(r) => At(s, r, Looking)
    case Enqueue(r, job) => At(s, r, Enqueuing) && job !in s.enqueued
    case Save(r) => r in s.requests && s.requests[r].place.Saving?
    case Die(r) => r in s.requests && (s.requests[r].place in {Arrived, Looking, Enqueuing} || s.requests[r].place.Saving?)
  }

  function Moved(s: State, r: RequestId, place: Place): State
    requires r in s.requests
  {
    s.(requests := s.requests[r := s.requests[r].(place := place)])
  }

  /** `start_idempotent_job` after the GET; without a record the request goes ahead. */
  function Read(stored: Option<KeyRecord>, hash: Hash): Place {
    if stored.None? then Enqueuing
    else if stored.value.hash != hash then Refused(OtherBody)
    else if stored.value.job.None? then Refused(UnderWay)
    else Accepted(stored.value.job.value)
  }

  function Do(s: State, step: Step): State
    requires Enabled(s, step)
  {
    match step
    case Arrive(r, hash) => s.(requests := s.requests[r := Request(hash, Arrived)])
    case SetNx(r) =>
      if s.stored.None? then Moved(s, r, Enqueuing).(stored := Some(KeyRecord(s.requests[r].hash, None)))
      else Moved(s, r, Looking)
    case Get(r) => Moved(s, r, Read(s.stored, s.requests[r].hash))
    case Enqueue(r, job) => Moved(s, r, Saving(job)).(enqueued := s.enqueued + [job])
    case Save(r) =>
      var job := s.requests[r].place.job;
      Moved(s, r, Accepted(job)).(stored := Some(KeyRecord(s.requests[r].hash, Some(job))))
    case Die(r) => Moved(s, r, Dead)
  }

  predicate Possible(s: State, steps: seq<Step>)
    decreases |steps|
  {
    steps == [] || (Enabled(s, steps[0]) && Possible(Do(s, steps[0]), steps[1..]))
  }

  function Steps(s: State, steps: seq<Step>): State
    requires Possible(s, steps)
    decreases |steps|
  {
    if steps == [] then s else Steps(Do(s, steps[0]), steps[1..])
  }

  // ---------------------------------------------------------------- what every step keeps

  /** The request got in first: it is the one that enqueues. */
  predicate First(place: Place) {
    place.Enqueuing? || place.Saving?
  }

  predicate RequestSound(s: State, q: Request) {
    match q.place
    case Arrived => true
    case Looking => s.stored.Some?
    case Enqueuing => s.stored == Some(KeyRecord(q.hash, None)) && s.enqueued == []
    case Saving(job) => s.stored == Some(KeyRecord(q.hash, None)) && s.enqueued == [job]
    case Accepted(job) => s.stored == Some(KeyRecord(q.hash, Some(job)))
    case Refused(OtherBody) => s.stored.Some? && s.stored.value.hash != q.hash
    case Refused(UnderWay) => s.stored.Some? && s.stored.value.hash == q.hash
    case Dead => true
  }

  ghost predicate Sound(s: State) {
    && (forall r :: r in s.requests ==> RequestSound(s, s.requests[r]))
    && (forall q, r :: q in s.requests && r in s.requests && First(s.requests[q].place) && First(s.requests[r].place) ==> q == r)
    && (s.stored.None? ==> s.enqueued == [])
    && (s.stored.Some? && s.stored.value.job.Some? ==> s.enqueued == [s.stored.value.job.value])
    && |s.enqueued| <= 1
  }

  lemma StepKeeps(s: State, step: Step)
    requires Sound(s) && Enabled(s, step)
    ensures Sound(Do(s, step))
    ensures s.stored.Some? ==> Do(s, step).stored.Some? && Do(s, step).stored.value.hash == s.stored.value.hash
    ensures s.enqueued <= Do(s, step).enqueued
  {
    if step.SetNx? || step.Get? || step.Enqueue? || step.Save? { assert RequestSound(s, s.requests[step.r]); }
    var t := Do(s, step);
    forall r | r in t.requests ensures RequestSound(t, t.requests[r]) {
      if r in s.requests { assert RequestSound(s, s.requests[r]); }
    }
  }

  lemma {:induction false} RunKeeps(s: State, steps: seq<Step>)
    requires Sound(s) && Possible(s, steps)
    ensures Sound(Steps(s, steps))
    decreases |steps|
  {
    hide Do, Enabled, Sound;
    if steps != [] {
      StepKeeps(s, steps[0]);
      RunKeeps(Do(s, steps[0]), steps[1..]);
    }
  }

  function Untouched(): State {
    State(None, map[], [])
  }

  /** In every interleaving one job is enqueued at most, and every accepted answer
      carries its id; requests with different bodies are not both accepted. */
  lemma OneJob(steps: seq<Step>, a: RequestId, b: RequestId)
    requires Possible(Untouched(), steps)
    ensures var s := Steps(Untouched(), steps);
            && |s.enqueued| <= 1
            && (a in s.requests && s.requests[a].place.Accepted? ==> s.enqueued == [s.requests[a].place.job])
            && (a in s.requests && b in s.requests && s.requests[a].place.Accepted?
                && s.requests[b].hash != s.requests[a].hash ==>
                  !s.requests[b].place.Accepted?)
  {
    RunKeeps(Untouched(), steps);
    var s := Steps(Untouched(), steps);
    if a in s.requests { assert RequestSound(s, s.requests[a]); }
    if b in s.requests { assert RequestSound(s, s.requests[b]); }
  }

  /** When no request is under way and none has died, exactly one was enqueued. */
  lemma ExactlyOneJob(steps: seq<Step>, r: RequestId)
    requires Possible(Untouched(), steps) && (forall step :: step in steps ==> !step.Die?)
    requires r in Steps(Untouched(), steps).requests
    requires forall q :: q in Steps(Untouched(), steps).requests ==>
               var place := Steps(Untouched(), steps).requests[q].place; place.Accepted? || place.Refused?
    ensures |Steps(Untouched(), steps).enqueued| == 1
  {
    RunKeeps(Untouched(), steps);
    FirstIsStillThere(Untouched(), steps);
    var s := Steps(Untouched(), steps);
    assert RequestSound(s, s.requests[r]);
  }

  /** While nobody dies, the record without a job has its request under way. */
  ghost predicate Attended(s: State) {
    s.stored.Some? && s.stored.value.job.None? ==> exists r :: r in s.requests && First(s.requests[r].place)
  }

  lemma {:induction false} FirstIsStillThere(s: State, steps: seq<Step>)
    requires Sound(s) && Attended(s) && Possible(s, steps) && forall step :: step in steps ==> !step.Die?
    ensures Attended(Steps(s, steps))
    decreases |steps|
  {
    hide Sound, RequestSound;
    if steps != [] {
      var next := Do(s, steps[0]);
      StepKeeps(s, steps[0]);
      assert steps[0] in steps && forall step :: step in steps[1..] ==> step in steps;
      StepAttends(s, steps[0]);
      FirstIsStillThere(next, steps[1..]);
    }
  }

  lemma StepAttends(s: State, step: Step)
    requires Sound(s) && Attended(s) && Enabled(s, step) && !step.Die?
    ensures Attended(Do(s, step))
  {
    var t := Do(s, step);
    if s.stored.Some? && s.stored.value.job.None? {
      var r :| r in s.requests && First(s.requests[r].place);
      assert RequestSound(s, s.requests[r]);
      if step != Save(r) { assert r in t.requests && First(t.requests[r].place); }
    } else if step.SetNx? && s.stored.None? {
      assert First(t.requests[step.r].place);
    } else if step.Get? {
      assert RequestSound(s, s.requests[step.r]);
    }
  }

  /** The answers of a request that came second, whichever step the first has reached:
      another body is refused as such; the same body is refused while no job is saved,
      and is then told the one enqueued. The branch on a missing record is never taken. */
  lemma SecondAnswers(s: State, r: RequestId)
    requires Sound(s) && At(s, r, Looking)
    ensures s.stored.Some?
    ensures var place, hash := Do(s, Get(r)).requests[r].place, s.requests[r].hash;
            && Do(s, Get(r)).stored == s.stored && Do(s, Get(r)).enqueued == s.enqueued
            && (place == Refused(OtherBody) <==> s.stored.value.hash != hash)
            && (place == Refused(UnderWay) <==> s.stored == Some(KeyRecord(hash, None)))
            && (forall job: JobId :: place == Accepted(job) <==> s.stored == Some(KeyRecord(hash, Some(job))))
            && (forall job: JobId :: place == Accepted(job) ==> s.enqueued == [job])
  {
    assert RequestSound(s, s.requests[r]);
  }

  /** The first request records its body before it enqueues, and its job after. */
  lemma FirstRecords(s: State, r: RequestId, job: JobId)
    requires Sound(s) && r in s.requests
    ensures At(s, r, Arrived) ==>
              var t := Do(s, SetNx(r));
              if s.stored.Some? then At(t, r, Looking) && t.stored == s.stored
              else At(t, r, Enqueuing) && t.stored == Some(KeyRecord(s.requests[r].hash, None)) && t.enqueued == s.enqueued
    ensures At(s, r, Saving(job)) ==>
              var t := Do(s, Save(r));
              && At(t, r, Accepted(job)) && t.stored == Some(KeyRecord(s.requests[r].hash, Some(job)))
              && t.enqueued == s.enqueued == [job]
  {
    assert RequestSound(s, s.requests[r]);
  }
}
