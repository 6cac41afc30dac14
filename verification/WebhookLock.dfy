/** The lock of one webhook event among the jobs that carry it: SET NX, GET and
    DELETE as separate steps, and the tries of a job one after another. */
module WebhookLock {
  import opened Entities

  type JobId = string

  /** `held`: a SET NX of the job took the lock, in this try or an earlier one. */
  datatype Place =
    | Between(nextTry: nat, held: bool)
    | Reading(try: nat, held: bool)
    | Inside(try: nat)
    | Releasing(held: bool)
    | Over

  datatype State = State(lock: Option<JobId>, jobs: map<JobId, Place>)

  /** How a try leaves the section: a result or a terminal error, another
      exception, or the death of the worker. */
  datatype Leaving = Terminal | Raised | Died

  datatype Step =
    | Arrive(job: JobId)
    | SetNx(job: JobId)
    | SetNxFails(job: JobId, applied: bool)
    | Get(job: JobId)
    | GetFails(job: JobId)
    | Leave(job: JobId, how: Leaving)
    | Delete(job: JobId)
    | DeleteFails(job: JobId)

  predicate Enabled(s: State, step: Step, maxTries: nat) {
    match step
    case Arrive(j) => j !in s.jobs
    case SetNx(j) => j in s.jobs && s.jobs[j].Between? && s.jobs[j].nextTry <= maxTries
    case SetNxFails(j, _) => j in s.jobs && s.jobs[j].Between? && s.jobs[j].nextTry <= maxTries
    case Get(j) => j in s.jobs && s.jobs[j].Reading?
    case GetFails(j) => j in s.jobs && s.jobs[j].Reading?
    case Leave(j, _) => j in s.jobs && s.jobs[j].Inside?
    case Delete(j) => j in s.jobs && s.jobs[j].Releasing?
    case DeleteFails(j) => j in s.jobs && s.jobs[j].Releasing?
  }

  function Moved(s: State, j: JobId, place: Place): State {
    s.(jobs := s.jobs[j := place])
  }

  /** An exception of try `n`: the lock is released only after the last one. */
  function AfterException(n: nat, held: bool, maxTries: nat): Place {
    if n >= maxTries then Releasing(held) else Between(n + 1, held)
  }

  function Do(s: State, step: Step, maxTries: nat): State
    requires Enabled(s, step, maxTries)
  {
    match step
    case Arrive(j) => Moved(s, j, Between(1, false))
    case SetNx(j) =>
      var Between(n, held) := s.jobs[j];
      if s.lock.None? then Moved(s, j, Inside(n)).(lock := Some(j)) else Moved(s, j, Reading(n, held))
    case SetNxFails(j, applied) =>
      var Between(n, held) := s.jobs[j];
      if applied && s.lock.None? then Moved(s, j, AfterException(n, true, maxTries)).(lock := Some(j))
      else Moved(s, j, AfterException(n, held, maxTries))
    case Get(j) =>
      var Reading(n, held) := s.jobs[j];
      Moved(s, j, if s.lock == Some(j) then Inside(n) else Over)
    case GetFails(j) => Moved(s, j, AfterException(s.jobs[j].try, s.jobs[j].held, maxTries))
    case Leave(j, how) =>
      var Inside(n) := s.jobs[j];
      Moved(s, j, match how
                  case Terminal => Releasing(true)
                  case Raised => AfterException(n, true, maxTries)
                  case Died => if n >= maxTries then Over else Between(n + 1, true))
    case Delete(j) => Moved(s, j, Over).(lock := None)
    case DeleteFails(j) => Moved(s, j, Over)
  }

  predicate Possible(s: State, steps: seq<Step>, maxTries: nat)
    decreases |steps|
  {
    steps == [] || (Enabled(s, steps[0], maxTries) && Possible(Do(s, steps[0], maxTries), steps[1..], maxTries))
  }

  function Steps(s: State, steps: seq<Step>, maxTries: nat): State
    requires Possible(s, steps, maxTries)
    decreases |steps|
  {
    if steps == [] then s else Steps(Do(s, steps[0], maxTries), steps[1..], maxTries)
  }

  /** A Redis call before entry that fails in a job's last try, when no SET NX of
      the job has taken the lock, this one included. */
  predicate FailsBeforeEntry(s: State, step: Step, maxTries: nat)
    requires Enabled(s, step, maxTries)
  {
    match step
    case SetNxFails(j, applied) => s.jobs[j].nextTry >= maxTries && !s.jobs[j].held && !(applied && s.lock.None?)
    case GetFails(j) => s.jobs[j].try >= maxTries && !s.jobs[j].held
    case _ => false
  }

  predicate NoneFailBeforeEntry(s: State, steps: seq<Step>, maxTries: nat)
    requires Possible(s, steps, maxTries)
    decreases |steps|
  {
    steps == [] || (!FailsBeforeEntry(s, steps[0], maxTries)
                    && NoneFailBeforeEntry(Do(s, steps[0], maxTries), steps[1..], maxTries))
  }

  // ---------------------------------------------------------------- what every step keeps

  /** The job has taken the lock, and its last try has not ended. */
  predicate Owns(place: Place) {
    match place
    case Between(_, held) => held
    case Reading(_, held) => held
    case Inside(_) => true
    case Releasing(held) => held
    case Over => false
  }

  /** An owner's id is the lock's value, and only an owner is about to delete it. */
  ghost predicate Locked(s: State) {
    && (forall j :: j in s.jobs && Owns(s.jobs[j]) ==> s.lock == Some(j))
    && (forall j :: j in s.jobs && s.jobs[j].Releasing? ==> s.jobs[j].held)
  }

  lemma StepKeepsLock(s: State, step: Step, maxTries: nat)
    requires Locked(s) && Enabled(s, step, maxTries) && !FailsBeforeEntry(s, step, maxTries)
    ensures Locked(Do(s, step, maxTries))
  {
  }

  lemma {:induction false} RunKeepsLock(s: State, steps: seq<Step>, maxTries: nat)
    requires Locked(s) && Possible(s, steps, maxTries) && NoneFailBeforeEntry(s, steps, maxTries)
    ensures Locked(Steps(s, steps, maxTries))
    decreases |steps|
  {
    hide Do, Enabled, FailsBeforeEntry;
    if steps != [] {
      StepKeepsLock(s, steps[0], maxTries);
      RunKeepsLock(Do(s, steps[0], maxTries), steps[1..], maxTries);
    }
  }

  /** In every interleaving: one job inside at most, the lock is its own from
      entry until its last try ends, and whoever deletes the lock deletes its own. */
  lemma OneInside(steps: seq<Step>, maxTries: nat, a: JobId, b: JobId)
    requires Possible(State(None, map[]), steps, maxTries) && NoneFailBeforeEntry(State(None, map[]), steps, maxTries)
    ensures var s := Steps(State(None, map[]), steps, maxTries);
            && (a in s.jobs && b in s.jobs && Owns(s.jobs[a]) && Owns(s.jobs[b]) ==> a == b)
            && (a in s.jobs && Owns(s.jobs[a]) ==> s.lock == Some(a))
            && (a in s.jobs && s.jobs[a].Releasing? ==> s.lock == Some(a))
  {
    RunKeepsLock(State(None, map[]), steps, maxTries);
  }

  /** A failed try that is not the last: its next try gets in again, and every
      other job that comes meanwhile ends as a duplicate. */
  lemma RetryReenters(s: State, a: JobId, b: JobId, maxTries: nat)
    requires Locked(s) && a in s.jobs && s.jobs[a].Between? && s.jobs[a].held && s.jobs[a].nextTry <= maxTries
    requires b in s.jobs && b != a && s.jobs[b].Between? && s.jobs[b].nextTry <= maxTries
    ensures var n := s.jobs[a].nextTry;
            var tried := Do(s, SetNx(a), maxTries);
            Enabled(tried, Get(a), maxTries) && Do(tried, Get(a), maxTries) == Moved(s, a, Inside(n))
    ensures var tried := Do(s, SetNx(b), maxTries);
            Enabled(tried, Get(b), maxTries) && Do(tried, Get(b), maxTries) == Moved(s, b, Over)
  {
    assert Owns(s.jobs[a]);
    var n := s.jobs[a].nextTry;
    assert s.jobs[a := Reading(n, true)][a := Inside(n)] == s.jobs[a := Inside(n)];
    assert s.jobs[b := Reading(s.jobs[b].nextTry, s.jobs[b].held)][b := Over] == s.jobs[b := Over];
  }

  // ---------------------------------------------------------------- the lock of another

  /** The lock that this step deletes is another job's. */
  predicate TakesAway(s: State, step: Step) {
    step.Delete? && s.lock.Some? && s.lock.value != step.job
  }

  predicate NoneTakenAway(s: State, steps: seq<Step>, maxTries: nat)
    requires Possible(s, steps, maxTries)
    decreases |steps|
  {
    steps == [] || (!TakesAway(s, steps[0]) && NoneTakenAway(Do(s, steps[0], maxTries), steps[1..], maxTries))
  }

  /** A Redis call of `j` before entry failed in its last try, somewhere in the run. */
  predicate FailedBeforeEntry(s: State, steps: seq<Step>, j: JobId, maxTries: nat)
    requires Possible(s, steps, maxTries)
    decreases |steps|
  {
    steps != [] && ((FailsBeforeEntry(s, steps[0], maxTries) && steps[0].job == j)
                    || FailedBeforeEntry(Do(s, steps[0], maxTries), steps[1..], j, maxTries))
  }

  /** Owners hold the lock, and the lock is an owner's, or left by one that died. */
  ghost predicate OwnersHold(s: State) {
    && (forall j :: j in s.jobs && Owns(s.jobs[j]) ==> s.lock == Some(j))
    && (s.lock.Some? ==> s.lock.value in s.jobs && (Owns(s.jobs[s.lock.value]) || s.jobs[s.lock.value].Over?))
  }

  /** This holds through every step that takes no lock away, failed calls included. */
  lemma StepKeepsOwners(s: State, step: Step, maxTries: nat)
    requires OwnersHold(s) && Enabled(s, step, maxTries) && !TakesAway(s, step)
    ensures OwnersHold(Do(s, step, maxTries))
  {
  }

  /** A job comes to release a lock it never took exactly by a failed call before
      entry in its last try. */
  lemma ReleasesUnheldExactly(s: State, step: Step, j: JobId, maxTries: nat)
    requires Enabled(s, step, maxTries) && !(j in s.jobs && s.jobs[j] == Releasing(false))
    ensures (j in Do(s, step, maxTries).jobs && Do(s, step, maxTries).jobs[j] == Releasing(false))
            <==> FailsBeforeEntry(s, step, maxTries) && step.job == j
  {
  }

  lemma {:induction false} RunFindsCause(s: State, steps: seq<Step>, j: JobId, maxTries: nat)
    requires OwnersHold(s) && Possible(s, steps, maxTries) && NoneTakenAway(s, steps, maxTries)
    ensures var t := Steps(s, steps, maxTries);
            && OwnersHold(t)
            && (j in t.jobs && t.jobs[j] == Releasing(false) ==>
                  (j in s.jobs && s.jobs[j] == Releasing(false)) || FailedBeforeEntry(s, steps, j, maxTries))
    decreases |steps|
  {
    hide Do, Enabled, FailsBeforeEntry, OwnersHold;
    if steps != [] {
      var next := Do(s, steps[0], maxTries);
      StepKeepsOwners(s, steps[0], maxTries);
      RunFindsCause(next, steps[1..], j, maxTries);
      if !(j in s.jobs && s.jobs[j] == Releasing(false)) { ReleasesUnheldExactly(s, steps[0], j, maxTries); }
    }
  }

  /** The first time in a run that a deletion could take another job's lock away,
      it does exactly when the lock is held and the job deleting it never took
      it; and then a call of that job before entry had failed in its last try. */
  lemma DeletesAnothersExactly(steps: seq<Step>, j: JobId, maxTries: nat)
    requires Possible(State(None, map[]), steps, maxTries) && NoneTakenAway(State(None, map[]), steps, maxTries)
    requires Enabled(Steps(State(None, map[]), steps, maxTries), Delete(j), maxTries)
    ensures var s := Steps(State(None, map[]), steps, maxTries);
            && (TakesAway(s, Delete(j)) <==> s.lock.Some? && s.jobs[j] == Releasing(false))
            && (TakesAway(s, Delete(j)) ==> FailedBeforeEntry(State(None, map[]), steps, j, maxTries))
            && Do(s, Delete(j), maxTries).lock == None
  {
    RunFindsCause(State(None, map[]), steps, j, maxTries);
  }

  /** And it does happen: a job deletes the lock of another that is inside. */
  lemma AnothersLockDeleted(a: JobId, b: JobId)
    requires a != b
    ensures var steps := [Arrive(a), SetNx(a), Arrive(b), SetNx(b), GetFails(b), Delete(b)];
            && Possible(State(None, map[]), steps, 1)
            && var s := Steps(State(None, map[]), steps, 1);
               a in s.jobs && s.jobs[a].Inside? && s.lock == None
  {
    var s0 := State(None, map[]);
    var s1 := Do(s0, Arrive(a), 1);
    var s2 := Do(s1, SetNx(a), 1);
    var s3 := Do(s2, Arrive(b), 1);
    var s4 := Do(s3, SetNx(b), 1);
    var s5 := Do(s4, GetFails(b), 1);
    var s6 := Do(s5, Delete(b), 1);
    Unfold(s5, Delete(b), [], 1);
    Unfold(s4, GetFails(b), [Delete(b)], 1);
    Unfold(s3, SetNx(b), [GetFails(b), Delete(b)], 1);
    Unfold(s2, Arrive(b), [SetNx(b), GetFails(b), Delete(b)], 1);
    Unfold(s1, SetNx(a), [Arrive(b), SetNx(b), GetFails(b), Delete(b)], 1);
    Unfold(s0, Arrive(a), [SetNx(a), Arrive(b), SetNx(b), GetFails(b), Delete(b)], 1);
    assert Steps(s6, [], 1) == s6;
  }

  lemma Unfold(s: State, step: Step, rest: seq<Step>, maxTries: nat)
    requires Enabled(s, step, maxTries) && Possible(Do(s, step, maxTries), rest, maxTries)
    ensures Possible(s, [step] + rest, maxTries)
    ensures Steps(s, [step] + rest, maxTries) == Steps(Do(s, step, maxTries), rest, maxTries)
  {
    hide Do, Enabled;
    assert ([step] + rest)[1..] == rest;
  }
}
