/** The queue's mutable state and the handles that drive it. Each method is the code run
    under the mutex; its contract is one step of the state machine. */
module QueueClass {
  import opened Text
  import opened Scope
  import opened Queue
  import opened QueueLaws
  import opened QueueHistory

  datatype EnqueueResult = Queued(job: Job) | Coalesced(job: Job)

  datatype EnqueueError = LockRefused | JobNotCreated

  /** A job has the key of its scope, or that of the system update. */
  predicate KeyFits(key: Key, scope: Scope) {
    match key
    case Reconcile(s) => s == scope
    case UpdateSystem => scope == System
  }

  class ReconciliationQueue {
    var active: Option<Job>
    var queued: seq<Job>
    var updateLock: bool
    var notifications: nat
    ghost var log: State

    /** The log agrees with the guarded state and has kept the invariant so far. */
    ghost predicate Valid()
      reads this
    {
      && log.active == active && log.queued == queued && log.locked == updateLock && log.generation == notifications
      && Inv(log)
      && (forall j :: j in queued ==> KeyFits(j.key, j.scope))
      && (active.Some? ==> KeyFits(active.value.key, active.value.scope))
    }

    constructor ()
      ensures Valid() && log == INITIAL
    {
      active, queued, updateLock, notifications, log := None, [], false, 0, INITIAL;
      InitialInv();
    }

    /** The result an enqueue step of the state machine stands for. */
    ghost function ResultOf(s: State, step: Step): Result<EnqueueResult, EnqueueError>
      requires step.Enqueue?
    {
      match MatchingJob(s.queued, step.key)
      case Some(job) => Ok(Coalesced(job))
      case None =>
        if step.mutating && !s.locked && !step.lockFree then Err(LockRefused)
        else if step.created.None? then Err(JobNotCreated)
        else Ok(Queued(Job(step.key, step.scope, step.created.value)))
    }

    method EnqueueWithKey(scope: Scope, key: Key, created: Option<string>)
      returns (result: Result<EnqueueResult, EnqueueError>)
      requires Valid() && KeyFits(key, scope) && Enabled(log, Enqueue(key, scope, false, true, created))
      modifies this
      ensures Valid() && log == Next(old(log), Enqueue(key, scope, false, true, created))
      ensures result == ResultOf(old(log), Enqueue(key, scope, false, true, created))
    {
      hide Inv, HasId, Retain, JobOf;
      ghost var step := Enqueue(key, scope, false, true, created);
      StepKeeps(log, step);
      log := Next(log, step);
      var matching := MatchingJob(queued, key);
      if matching.Some? {
        return Ok(Coalesced(matching.value));
      }
      if created.None? {
        return Err(JobNotCreated);
      }
      var job := Job(key, scope, created.value);
      queued := queued + [job];
      notifications := notifications + 1;
      return Ok(Queued(job));
    }

    /** `lockFree` says whether the update lock would be granted, `created` is the new job's
        id unless its creation fails; both are consulted only where the code asks. */
    method EnqueueMutatingWithKey(scope: Scope, key: Key, lockFree: bool, created: Option<string>)
      returns (result: Result<EnqueueResult, EnqueueError>)
      requires Valid() && KeyFits(key, scope) && Enabled(log, Enqueue(key, scope, true, lockFree, created))
      modifies this
      ensures Valid() && log == Next(old(log), Enqueue(key, scope, true, lockFree, created))
      ensures result == ResultOf(old(log), Enqueue(key, scope, true, lockFree, created))
    {
      hide Inv, HasId, Retain, JobOf;
      ghost var step := Enqueue(key, scope, true, lockFree, created);
      StepKeeps(log, step);
      log := Next(log, step);
      var matching := MatchingJob(queued, key);
      if matching.Some? {
        return Ok(Coalesced(matching.value));
      }
      var acquiredLock := !updateLock;
      if acquiredLock {
        if !lockFree {
          return Err(LockRefused);
        }
        updateLock := true;
      }
      if created.None? {
        if acquiredLock && active.None? && queued == [] {
          updateLock := false;
        }
        return Err(JobNotCreated);
      }
      var job := Job(key, scope, created.value);
      queued := queued + [job];
      notifications := notifications + 1;
      return Ok(Queued(job));
    }

    /** A request for the reconciliation of a scope: it joins a queued one of that scope, which
        changes nothing, or goes last; the lock is not touched. */
    method EnqueueScope(scope: Scope, created: Option<string>) returns (result: Result<EnqueueResult, EnqueueError>)
      requires Valid() && Enabled(log, Enqueue(Reconcile(scope), scope, false, true, created))
      modifies this
      ensures Valid() && log == Next(old(log), Enqueue(Reconcile(scope), scope, false, true, created))
      ensures active == old(active) && updateLock == old(updateLock)
      ensures Answered(result, old(queued), queued, Reconcile(scope), scope, created)
      ensures !KeyQueued(old(queued), Reconcile(scope)) && created.None? ==> result == Err(JobNotCreated)
      ensures notifications == old(notifications) + |queued| - |old(queued)|
    {
      hide Inv, HasId, Next, Enabled;
      EnqueueExact(log, Reconcile(scope), scope, false, true, created);
      MatchingExact(queued, Reconcile(scope));
      result := EnqueueWithKey(scope, Reconcile(scope), created);
    }

    /** The same under the update lock: a new job takes it, a refused lock changes nothing, and
        where no job is created the lock stays only with other work. */
    method EnqueueMutating(scope: Scope, lockFree: bool, created: Option<string>)
      returns (result: Result<EnqueueResult, EnqueueError>)
      requires Valid() && Enabled(log, Enqueue(Reconcile(scope), scope, true, lockFree, created))
      modifies this
      ensures Valid() && log == Next(old(log), Enqueue(Reconcile(scope), scope, true, lockFree, created))
      ensures active == old(active)
      ensures Answered(result, old(queued), queued, Reconcile(scope), scope, created)
      ensures Locked(result, old(active), old(queued), old(updateLock), updateLock, Reconcile(scope), lockFree)
      ensures notifications == old(notifications) + |queued| - |old(queued)|
    {
      hide Inv, HasId, Next, Enabled;
      EnqueueExact(log, Reconcile(scope), scope, true, lockFree, created);
      MatchingExact(queued, Reconcile(scope));
      result := EnqueueMutatingWithKey(scope, Reconcile(scope), lockFree, created);
    }

    /** The same for the update, which has a key of its own. */
    method EnqueueSystemUpdate(lockFree: bool, created: Option<string>)
      returns (result: Result<EnqueueResult, EnqueueError>)
      requires Valid() && Enabled(log, Enqueue(UpdateSystem, System, true, lockFree, created))
      modifies this
      ensures Valid() && log == Next(old(log), Enqueue(UpdateSystem, System, true, lockFree, created))
      ensures active == old(active)
      ensures Answered(result, old(queued), queued, UpdateSystem, System, created)
      ensures Locked(result, old(active), old(queued), old(updateLock), updateLock, UpdateSystem, lockFree)
      ensures notifications == old(notifications) + |queued| - |old(queued)|
    {
      hide Inv, HasId, Next, Enabled;
      EnqueueExact(log, UpdateSystem, System, true, lockFree, created);
      MatchingExact(queued, UpdateSystem);
      result := EnqueueMutatingWithKey(System, UpdateSystem, lockFree, created);
    }

    /** One look at the queue by a waiting handle, under the mutex. */
    method TryStart(id: string) returns (started: Option<Job>)
      requires Valid() && Enabled(log, Look(id))
      modifies this
      ensures Valid() && log == Next(old(log), Look(id))
      ensures started == if HasTurn(old(log), id) then Some(old(queued)[0]) else None
      ensures started.Some? <==> old(active).None? && old(queued) != [] && old(queued)[0].id == id
      ensures started.Some? ==> active == started && [started.value] + queued == old(queued)
      ensures started.None? ==> active == old(active) && queued == old(queued)
      ensures updateLock == old(updateLock) && notifications == old(notifications)
    {
      hide Inv, HasId, Retain, JobOf;
      StepKeeps(log, Look(id));
      log := Next(log, Look(id));
      if active.None? && queued != [] && queued[0].id == id {
        var job := queued[0];
        queued := queued[1..];
        active := Some(job);
        return Some(job);
      }
      return None;
    }

    method ReleaseUpdateLockIfIdle()
      modifies this`updateLock
      ensures updateLock == (old(updateLock) && !(active.None? && queued == []))
    {
      if active.None? && queued == [] {
        updateLock := false;
      }
    }

    method RemoveQueuedJob(id: string) returns (removed: bool)
      requires Valid() && Enabled(log, DropQueued(id))
      modifies this
      ensures Valid() && log == Next(old(log), DropQueued(id))
      ensures removed <==> HasId(old(queued), id)
      ensures active == old(active) && queued == Retain(old(queued), id)
      ensures updateLock == (old(updateLock) && (!removed || active.Some? || queued != []))
      ensures notifications == old(notifications) + if removed then 1 else 0
    {
      hide Inv, HasId, Retain, JobOf;
      StepKeeps(log, DropQueued(id));
      RetainLength(queued, id);
      RetainSome(queued, id);
      log := Next(log, DropQueued(id));
      var queuedLen := |queued|;
      queued := Retain(queued, id);
      if |queued| != queuedLen {
        ReleaseUpdateLockIfIdle();
        notifications := notifications + 1;
        return true;
      }
      return false;
    }

    /** What `finish` and the drop of a running handle share; `abandoned` tells which it is. */
    method ReleaseActiveJob(id: string, ghost abandoned: bool) returns (released: bool)
      requires Valid() && Enabled(log, if abandoned then DropRunning(id) else Finish(id))
      modifies this
      ensures Valid() && log == Next(old(log), if abandoned then DropRunning(id) else Finish(id))
      ensures released <==> IsActive(old(log), id)
      ensures released <==> old(active).Some? && old(active).value.id == id
      ensures queued == old(queued) && active == if released then None else old(active)
      ensures updateLock == (old(updateLock) && (!released || queued != []))
      ensures notifications == old(notifications) + if released then 1 else 0
    {
      hide Inv, HasId, Retain, JobOf;
      ghost var step := if abandoned then DropRunning(id) else Finish(id);
      StepKeeps(log, step);
      log := Next(log, step);
      if active.Some? && active.value.id == id {
        active := None;
        ReleaseUpdateLockIfIdle();
        notifications := notifications + 1;
        return true;
      }
      return false;
    }

    /** The steps a handle takes outside the mutex. */
    ghost method Record(step: Step)
      requires Valid() && Enabled(log, step) && (step.Arm? || step.Wake? || step.Callback?)
      modifies this`log
      ensures Valid() && log == Next(old(log), step)
    {
      hide Inv, HasId, Retain, JobOf;
      StepKeeps(log, step);
      log := Next(log, step);
    }
  }

  /** A request is answered with a queued job of its key, with nothing joining the queue, or with
      a new job that goes last; or it fails and leaves the queue as it was. */
  ghost predicate Answered(result: Result<EnqueueResult, EnqueueError>, was: seq<Job>, now: seq<Job>, key: Key,
                           scope: Scope, created: Option<string>) {
    match result
    case Ok(Coalesced(job)) => job in was && job.key == key && job.scope == scope && now == was
    case Ok(Queued(job)) =>
      !KeyQueued(was, key) && created.Some? && job == Job(key, scope, created.value) && now == was + [job]
    case Err(_) => !KeyQueued(was, key) && now == was
  }

  /** What becomes of the update lock, by the answer. */
  ghost predicate Locked(result: Result<EnqueueResult, EnqueueError>, active: Option<Job>, queued: seq<Job>, was: bool,
                         now: bool, key: Key, lockFree: bool) {
    && (result == Err(LockRefused) <==> !KeyQueued(queued, key) && !was && !lockFree)
    && now == match result
       case Ok(Coalesced(_)) => was
       case Ok(Queued(_)) => true
       case Err(LockRefused) => was
       case Err(JobNotCreated) => was || active.Some? || queued != []
  }

  lemma MatchingExact(jobs: seq<Job>, key: Key)
    ensures MatchingJob(jobs, key).Some? <==> KeyQueued(jobs, key)
  {
  }

  lemma {:induction false} RetainSome(jobs: seq<Job>, id: string)
    ensures forall j :: j in Retain(jobs, id) ==> j in jobs
  {
    if jobs != [] {
      RetainSome(jobs[1..], id);
    }
  }

  lemma {:induction false} RetainLength(jobs: seq<Job>, id: string)
    ensures |Retain(jobs, id)| <= |jobs|
    ensures |Retain(jobs, id)| == |jobs| <==> !HasId(jobs, id)
    ensures !HasId(jobs, id) ==> Retain(jobs, id) == jobs
  {
    if jobs != [] {
      RetainLength(jobs[1..], id);
      if HasId(jobs, id) && jobs[0].id != id {
        var i :| 0 <= i < |jobs| && jobs[i].id == id;
        assert jobs[1..][i - 1].id == id;
      }
      if HasId(jobs[1..], id) {
        var i :| 0 <= i < |jobs| - 1 && jobs[1..][i].id == id;
        assert jobs[i + 1].id == id;
      }
    }
  }

  /** A waiting handle. It hands its job and its abandon callback over when its turn comes;
      dropped before that, it removes its job and runs the callback, once. */
  class QueuedReconciliation {
    const queue: ReconciliationQueue
    const job: Job
    var released: bool
    var hasCallback: bool
    var abandonCalls: nat

    constructor (queue: ReconciliationQueue, job: Job)
      ensures this.queue == queue && this.job == job && !released && hasCallback && abandonCalls == 0
    {
      this.queue, this.job, released, hasCallback, abandonCalls := queue, job, false, true, 0;
    }

    /** One turn of the waiting loop: null means that the handle goes on waiting. */
    method TryTurn() returns (running: RunningReconciliation?)
      requires queue.Valid() && Enabled(queue.log, Look(job.id)) && !released
      modifies this, queue
      ensures queue.Valid() && queue.log == Next(old(queue.log), Look(job.id))
      ensures running == null <==> !HasTurn(old(queue.log), job.id)
      ensures abandonCalls == old(abandonCalls) && (released <==> running != null)
      ensures running == null ==> hasCallback == old(hasCallback)
      ensures running != null ==>
        && fresh(running) && running.queue == queue && running.job == old(queue.queued)[0] && running.job.id == job.id
        && !running.finished && running.abandonCalls == 0 && running.hasCallback == old(hasCallback) && !hasCallback
    {
      hide Inv, HasId, Next, Enabled;
      var started := queue.TryStart(job.id);
      if started.None? {
        return null;
      }
      running := new RunningReconciliation(queue, started.value, hasCallback);
      hasCallback, released := false, true;
    }

    method Drop()
      requires queue.Valid() && (!released ==> hasCallback)
      requires !released ==> Enabled(queue.log, DropQueued(job.id))
      modifies this, queue
      ensures queue.Valid()
      ensures old(released) ==> queue.log == old(queue.log) && abandonCalls == old(abandonCalls)
      ensures !old(released) ==>
        && queue.log == AfterDrop(old(queue.log), DropQueued(job.id), job.id)
        && abandonCalls == old(abandonCalls) + 1
    {
      hide Inv, HasId, Retain, JobOf;
      if released {
        return;
      }
      DropEnablesCallback(queue.log, job.id);
      var removed := queue.RemoveQueuedJob(job.id);
      if removed && hasCallback {
        hasCallback := false;
        abandonCalls := abandonCalls + 1;
        queue.Record(Callback(job.id));
      }
    }
  }

  /** A running handle: `Finish` releases the active job; a drop without it abandons it. */
  class RunningReconciliation {
    const queue: ReconciliationQueue
    const job: Job
    var finished: bool
    var hasCallback: bool
    var abandonCalls: nat

    constructor (queue: ReconciliationQueue, job: Job, hasCallback: bool)
      ensures this.queue == queue && this.job == job && this.hasCallback == hasCallback
      ensures !finished && abandonCalls == 0
    {
      this.queue, this.job, finished, this.hasCallback, abandonCalls := queue, job, false, hasCallback, 0;
    }

    method Finish()
      requires queue.Valid() && Enabled(queue.log, Step.Finish(job.id))
      modifies this, queue
      ensures queue.Valid() && queue.log == Next(old(queue.log), Step.Finish(job.id))
      ensures finished && abandonCalls == old(abandonCalls)
    {
      hide Inv, HasId;
      var _ := queue.ReleaseActiveJob(job.id, false);
      finished := true;
    }

    method Drop()
      requires queue.Valid() && (!finished ==> hasCallback)
      requires !finished ==> Enabled(queue.log, DropRunning(job.id))
      modifies this, queue
      ensures queue.Valid()
      ensures old(finished) ==> queue.log == old(queue.log) && abandonCalls == old(abandonCalls)
      ensures !old(finished) ==>
        && queue.log == AfterDrop(old(queue.log), DropRunning(job.id), job.id)
        && abandonCalls == old(abandonCalls) + 1
    {
      hide Inv, HasId, Retain, JobOf;
      if finished {
        return;
      }
      DropEnablesCallback(queue.log, job.id);
      var released := queue.ReleaseActiveJob(job.id, true);
      if released && hasCallback {
        hasCallback := false;
        abandonCalls := abandonCalls + 1;
        queue.Record(Callback(job.id));
      }
    }
  }

  /** A handle that may be dropped finds its job where it left it. */
  lemma DropEnablesCallback(s: State, id: string)
    requires Inv(s)
    ensures Enabled(s, DropQueued(id)) ==> HasId(s.queued, id) && Enabled(Next(s, DropQueued(id)), Callback(id))
    ensures Enabled(s, DropRunning(id)) ==> IsActive(s, id) && Enabled(Next(s, DropRunning(id)), Callback(id))
  {
    hide Without, HasId, LockMatches, NoLostWakeup, Conserved, CallbacksOnce, TrailingEdge, DistinctKeys, DistinctIds,
      InOrder;
  }

  /** The state a drop leads to: the job removed, then its abandon callback run. */
  ghost function AfterDrop(s: State, step: Step, id: string): State
    requires Inv(s) && (step == DropQueued(id) || step == DropRunning(id)) && Enabled(s, step)
  {
    DropEnablesCallback(s, id);
    Next(Next(s, step), Callback(id))
  }
}
