/** A route that creates under an idempotency key: `start_idempotent_job`, the
    enqueue and `save_idempotent_job`, with other requests at every await. */
module IdempotencyRoute {
  import opened Entities
  import opened Idempotency

  lemma {:induction false} RunGrows(s: State, steps: seq<Step>, step: Step)
    requires Possible(s, steps) && Enabled(Steps(s, steps), step)
    ensures Possible(s, steps + [step]) && Steps(s, steps + [step]) == Do(Steps(s, steps), step)
    decreases |steps|
  {
    hide Do, Enabled;
    if steps == [] {
      assert [step][1..] == [];
    } else {
      assert (steps + [step])[1..] == steps[1..] + [step];
      RunGrows(Do(s, steps[0]), steps[1..], step);
    }
  }

  function RequestOf(step: Step): RequestId {
    step.r
  }

  class Route {
    var stored: Option<KeyRecord>
    var requests: map<RequestId, Request>
    var enqueued: seq<JobId>
    ghost var steps: seq<Step>

    constructor ()
      ensures Traced() && Now() == Untouched()
    {
      stored, requests, enqueued, steps := None, map[], [], [];
    }

    function Now(): State
      reads this
    {
      State(stored, requests, enqueued)
    }

    /** The present is what the steps so far made of an untouched key. */
    ghost predicate Traced()
      reads this
    {
      Possible(Untouched(), steps) && Steps(Untouched(), steps) == Now()
    }

    /** Records a step that this code has just taken. */
    ghost method Record(before: State, step: Step)
      requires Possible(Untouched(), steps) && Steps(Untouched(), steps) == before
      requires Enabled(before, step) && Do(before, step) == Now()
      modifies this`steps
      ensures Traced() && steps == old(steps) + [step]
    {
      RunGrows(Untouched(), steps, step);
      steps := steps + [step];
    }

    /** An await: other requests take steps of their own. */
    method Await(r: RequestId)
      requires Traced() && r in requests
      modifies this
      ensures Traced() && old(steps) <= steps && r in requests && requests[r] == old(requests[r])
    {
      hide Possible, Steps;
      var n: nat := *;
      while n > 0
        invariant Traced() && old(steps) <= steps && r in requests && requests[r] == old(requests[r])
      {
        var step: Step := *;
        if RequestOf(step) != r && Enabled(Now(), step) {
          ghost var before := Now();
          var after := Do(Now(), step);
          stored, requests, enqueued := after.stored, after.requests, after.enqueued;
          Record(before, step);
        }
        n := n - 1;
      }
    }

    method MoveTo(r: RequestId, place: Place, ghost before: State, ghost step: Step)
      requires Possible(Untouched(), steps) && Steps(Untouched(), steps) == before && r in requests && Enabled(before, step)
      requires Do(before, step) == State(stored, requests[r := requests[r].(place := place)], enqueued)
      modifies this`requests, this`steps
      ensures Traced() && steps == old(steps) + [step] && requests == old(requests)[r := old(requests[r]).(place := place)]
    {
      hide Possible, Steps, Do, Enabled;
      requests := requests[r := requests[r].(place := place)];
      Record(before, step);
    }

    /** `start_idempotent_job`: `None` lets the request enqueue. */
    method StartJob(r: RequestId) returns (reply: Option<Place>)
      requires Traced() && r in requests && requests[r].place == Arrived
      modifies this
      ensures Traced() && old(steps) <= steps && r in requests && requests[r].hash == old(requests[r].hash)
      ensures requests[r].place == if reply.None? then Enqueuing else reply.value
      ensures reply.Some? ==> reply.value.Accepted? || reply.value.Refused?
      ensures reply == Some(Refused(UnderWay)) ==> stored.Some? && stored.value.job.None?
    {
      hide Possible, Steps;
      ghost var before := Now();
      var hash := requests[r].hash;
      if stored.None? {
        stored := Some(KeyRecord(hash, None));
        MoveTo(r, Enqueuing, before, SetNx(r));
        return None;
      }
      MoveTo(r, Looking, before, SetNx(r));
      Await(r);
      before := Now();
      var record := stored;
      var place: Place;
      if record.None? { place := Enqueuing; }
      else if record.value.hash != hash { place := Refused(OtherBody); }
      else if record.value.job.None? { place := Refused(UnderWay); }
      else { place := Accepted(record.value.job.value); }
      MoveTo(r, place, before, Get(r));
      reply := if place == Enqueuing then None else Some(place);
    }

    /** The route: one request to its answer. What it is told is the id of the one
        job enqueued under the key, or a conflict. */
    method Create(r: RequestId, hash: Hash) returns (reply: Place)
      requires Traced() && r !in requests
      modifies this
      ensures Traced() && old(steps) <= steps && r in requests && requests[r] == Request(hash, reply)
      ensures reply.Accepted? ==> enqueued == [reply.job] && stored == Some(KeyRecord(hash, Some(reply.job)))
      ensures !reply.Accepted? ==> reply.Refused? && stored.Some?
      ensures reply == Refused(OtherBody) <==> stored.value.hash != hash
      ensures reply == Refused(UnderWay) <==> stored == Some(KeyRecord(hash, None))
    {
      hide Possible, Steps;
      ghost var before := Now();
      requests := requests[r := Request(hash, Arrived)];
      Record(before, Arrive(r, hash));
      var existing := StartJob(r);
      if existing.Some? {
        reply := existing.value;
      } else {
        Await(r);
        before := Now();
        RunKeeps(Untouched(), steps);
        NoneEnqueuedYet(before, r);
        var job: JobId := *;
        enqueued := enqueued + [job];
        MoveTo(r, Saving(job), before, Enqueue(r, job));
        Await(r);
        before := Now();
        stored := Some(KeyRecord(hash, Some(job)));
        MoveTo(r, Accepted(job), before, Save(r));
        reply := Accepted(job);
      }
      RunKeeps(Untouched(), steps);
      AnswerSound(Now(), r);
    }
  }

  lemma NoneEnqueuedYet(s: State, r: RequestId)
    requires Sound(s) && At(s, r, Enqueuing)
    ensures s.enqueued == []
  {
    assert RequestSound(s, s.requests[r]);
  }

  lemma AnswerSound(s: State, r: RequestId)
    requires Sound(s) && r in s.requests && (s.requests[r].place.Accepted? || s.requests[r].place.Refused?)
    ensures s.stored.Some?
    ensures s.requests[r].place.Accepted? ==>
              && s.enqueued == [s.requests[r].place.job]
              && s.stored == Some(KeyRecord(s.requests[r].hash, Some(s.requests[r].place.job)))
    ensures s.requests[r].place == Refused(OtherBody) <==> s.stored.value.hash != s.requests[r].hash
    ensures s.requests[r].place == Refused(UnderWay) ==> s.stored.value.hash == s.requests[r].hash
  {
    assert RequestSound(s, s.requests[r]);
  }
}
