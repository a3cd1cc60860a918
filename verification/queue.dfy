/** The reconciliation queue as a state machine over every interleaving of its callers:
    enqueue (with or without the update lock), wait, start, finish, and the drops that
    cancel a queued or running job. The state keeps, beside what the mutex guards, the
    stage of each handle and a history of the run. */
module Queue {
  import opened Text
  import opened Scope

  datatype Key = Reconcile(scope: Scope) | UpdateSystem

  datatype Job = Job(key: Key, scope: Scope, id: string)

  /** Where the handle of a job is. `Armed` has created its notification but not looked at
      the queue; `Asleep` has looked and waits; `Releasing` was dropped and has yet to run
      its abandon callback. The number is the notification generation it was created at. */
  datatype Stage = Held | Armed(seen: nat) | Asleep(seen: nat) | Running | Releasing | Done

  /** An enqueue request that was answered with a job, after `startedBefore` starts. */
  datatype Request = Request(job: Job, startedBefore: nat)

  datatype State = State(
    active: Option<Job>,
    queued: seq<Job>,
    locked: bool,
    generation: nat,
    stages: map<string, Stage>,
    enqueued: seq<Job>,
    started: seq<Job>,
    finished: seq<Job>,
    released: seq<Job>,
    dropped: set<string>,
    callbacks: seq<string>,
    requests: seq<Request>,
    plain: bool)

  const INITIAL := State(None, [], false, 0, map[], [], [], [], [], {}, [], [], false)

  function MatchingJob(queued: seq<Job>, key: Key): (found: Option<Job>)
    ensures found.Some? ==> found.value in queued && found.value.key == key
    ensures found.None? ==> forall j :: j in queued ==> j.key != key
  {
    if queued == [] then None
    else if queued[0].key == key then Some(queued[0])
    else MatchingJob(queued[1..], key)
  }

  /** The queue without the job of that id. */
  function Retain(jobs: seq<Job>, id: string): seq<Job> {
    if jobs == [] then []
    else if jobs[0].id == id then Retain(jobs[1..], id)
    else [jobs[0]] + Retain(jobs[1..], id)
  }

  predicate HasId(jobs: seq<Job>, id: string) {
    exists i :: 0 <= i < |jobs| && jobs[i].id == id
  }

  predicate Idle(s: State) {
    s.active.None? && s.queued == []
  }

  // ------------------------------------------------------------------
  // Steps
  // ------------------------------------------------------------------

  datatype Step =
    | Enqueue(key: Key, scope: Scope, mutating: bool, lockFree: bool, created: Option<string>)
    | Arm(id: string)
    | Look(id: string)
    | Wake(id: string)
    | Finish(id: string)
    | DropQueued(id: string)
    | DropRunning(id: string)
    | Callback(id: string)

  predicate StageIs(s: State, id: string, stage: Stage) {
    id in s.stages && s.stages[id] == stage
  }

  /** What a caller may do: job ids are fresh, and a handle acts by its stage. A future is
      cancelled only before it waits or while it sleeps. */
  predicate Enabled(s: State, step: Step) {
    match step
    case Enqueue(_, _, _, _, created) => created.Some? ==> !HasId(s.enqueued, created.value)
    case Arm(id) => StageIs(s, id, Held)
    case Look(id) => id in s.stages && s.stages[id].Armed?
    case Wake(id) => id in s.stages && s.stages[id].Asleep? && s.stages[id].seen < s.generation
    case Finish(id) => StageIs(s, id, Running)
    case DropQueued(id) => id in s.stages && (s.stages[id].Held? || s.stages[id].Asleep?)
    case DropRunning(id) => StageIs(s, id, Running)
    case Callback(id) => StageIs(s, id, Releasing)
  }

  function EnqueueNext(s: State, key: Key, scope: Scope, mutating: bool, lockFree: bool, created: Option<string>)
    : State
  {
    match MatchingJob(s.queued, key)
    case Some(job) => s.(requests := s.requests + [Request(job, |s.started|)])
    case None =>
      if mutating && !s.locked && !lockFree then s
      else if created.None? then
        // A lock acquired for a job that could not be created is kept only by a busy queue.
        s.(locked := s.locked || (mutating && !Idle(s)))
      else
        var job := Job(key, scope, created.value);
        s.(locked := s.locked || mutating, queued := s.queued + [job], generation := s.generation + 1,
           stages := s.stages[job.id := Held], enqueued := s.enqueued + [job],
           requests := s.requests + [Request(job, |s.started|)], plain := s.plain || !mutating)
  }

  predicate HasTurn(s: State, id: string) {
    s.active.None? && s.queued != [] && s.queued[0].id == id
  }

  function LookNext(s: State, id: string): State
    requires id in s.stages && s.stages[id].Armed?
  {
    if HasTurn(s, id) then
      s.(active := Some(s.queued[0]), queued := s.queued[1..], stages := s.stages[id := Running],
         started := s.started + [s.queued[0]])
    else s.(stages := s.stages[id := Asleep(s.stages[id].seen)])
  }

  function ReleaseLockIfIdle(s: State): State {
    if Idle(s) then s.(locked := false) else s
  }

  predicate IsActive(s: State, id: string) {
    s.active.Some? && s.active.value.id == id
  }

  function FinishNext(s: State, id: string): State {
    if IsActive(s, id) then
      ReleaseLockIfIdle(s.(active := None, generation := s.generation + 1, stages := s.stages[id := Done],
                           finished := s.finished + [s.active.value]))
    else s.(stages := s.stages[id := Done])
  }

  function DropRunningNext(s: State, id: string): State {
    if IsActive(s, id) then
      ReleaseLockIfIdle(s.(active := None, generation := s.generation + 1, stages := s.stages[id := Releasing],
                           released := s.released + [s.active.value]))
    else s.(stages := s.stages[id := Done])
  }

  function JobOf(jobs: seq<Job>, id: string): (job: Job)
    requires HasId(jobs, id)
    ensures job in jobs && job.id == id
  {
    if jobs[0].id == id then jobs[0] else JobOf(jobs[1..], id)
  }

  function DropQueuedNext(s: State, id: string): State {
    if HasId(s.queued, id) then
      ReleaseLockIfIdle(s.(queued := Retain(s.queued, id), generation := s.generation + 1,
                           stages := s.stages[id := Releasing],
                           released := s.released + [JobOf(s.queued, id)], dropped := s.dropped + {id}))
    else s.(stages := s.stages[id := Done])
  }

  function Next(s: State, step: Step): State
    requires Enabled(s, step)
  {
    match step
    case Enqueue(key, scope, mutating, lockFree, created) => EnqueueNext(s, key, scope, mutating, lockFree, created)
    case Arm(id) => s.(stages := s.stages[id := Armed(s.generation)])
    case Look(id) => LookNext(s, id)
    case Wake(id) => s.(stages := s.stages[id := Held])
    case Finish(id) => FinishNext(s, id)
    case DropQueued(id) => DropQueuedNext(s, id)
    case DropRunning(id) => DropRunningNext(s, id)
    case Callback(id) => s.(stages := s.stages[id := Done], callbacks := s.callbacks + [id])
  }

  predicate IsRun(s: State, steps: seq<Step>)
    decreases |steps|
  {
    steps == [] || (Enabled(s, steps[0]) && IsRun(Next(s, steps[0]), steps[1..]))
  }

  function After(s: State, steps: seq<Step>): State
    requires IsRun(s, steps)
    decreases |steps|
  {
    if steps == [] then s else After(Next(s, steps[0]), steps[1..])
  }

  // ------------------------------------------------------------------
  // The invariant
  // ------------------------------------------------------------------

  predicate Waiting(stage: Stage) {
    stage.Held? || stage.Armed? || stage.Asleep?
  }

  ghost predicate DistinctIds(jobs: seq<Job>) {
    forall i, j :: 0 <= i < j < |jobs| ==> jobs[i].id != jobs[j].id
  }

  ghost predicate DistinctKeys(jobs: seq<Job>) {
    forall i, j :: 0 <= i < j < |jobs| ==> jobs[i].key != jobs[j].key
  }

  /** Handles match the queue: the waiting handles are those of the queued jobs, and the
      one running handle, if any, is that of the active job. */
  ghost predicate HandlesMatch(s: State) {
    && (forall id :: id in s.stages <==> HasId(s.enqueued, id))
    && (forall id :: id in s.stages ==> (Waiting(s.stages[id]) <==> HasId(s.queued, id)))
    && (forall id :: id in s.stages ==> (s.stages[id].Running? <==> IsActive(s, id)))
  }

  /** A held update lock means work; with mutating enqueues only, work means a held lock. */
  ghost predicate LockMatches(s: State) {
    && (s.locked ==> !Idle(s))
    && (!s.plain ==> (s.locked <==> !Idle(s)))
  }

  /** A sleeper that has seen the current generation is not the one whose turn it is. */
  ghost predicate NoLostWakeup(s: State) {
    forall id :: id in s.stages ==>
      match s.stages[id]
      case Armed(seen) => seen <= s.generation
      case Asleep(seen) => seen <= s.generation && (seen == s.generation ==> !HasTurn(s, id))
      case _ => true
  }

  function Without(jobs: seq<Job>, dropped: set<string>): seq<Job> {
    if jobs == [] then []
    else if jobs[0].id in dropped then Without(jobs[1..], dropped)
    else [jobs[0]] + Without(jobs[1..], dropped)
  }

  /** Jobs start in the order they were enqueued, those abandoned in the queue left out. */
  ghost predicate InOrder(s: State) {
    && s.started + s.queued == Without(s.enqueued, s.dropped)
    && forall id :: id in s.dropped ==> HasId(s.enqueued, id)
  }

  function ActiveJobs(s: State): seq<Job> {
    if s.active.Some? then [s.active.value] else []
  }

  /** Every enqueued job is queued, active, finished or abandoned, and only one of these. */
  ghost predicate Conserved(s: State) {
    multiset(s.enqueued) == multiset(s.queued) + multiset(ActiveJobs(s)) + multiset(s.finished) + multiset(s.released)
  }

  /** The abandon callback runs at most once and only for an abandoned job. */
  ghost predicate CallbacksOnce(s: State) {
    && (forall id :: id in s.callbacks ==> StageIs(s, id, Done))
    && (forall i, j :: 0 <= i < j < |s.callbacks| ==> s.callbacks[i] != s.callbacks[j])
    && (forall id :: id in s.callbacks ==> HasId(s.released, id))
    && (forall id :: id in s.stages && s.stages[id].Releasing? ==> HasId(s.released, id))
    && (forall j :: j in s.released ==> j.id in s.stages && (s.stages[j.id].Releasing? || j.id in s.callbacks))
  }

  ghost predicate ServedLater(s: State, r: Request) {
    || r.job in s.queued
    || r.job.id in s.dropped
    || exists i :: r.startedBefore <= i < |s.started| && s.started[i] == r.job
  }

  /** Every answered request is tied to a job that had not started yet: it is still queued,
      was abandoned in the queue, or started after the request. */
  ghost predicate TrailingEdge(s: State) {
    forall i :: 0 <= i < |s.requests| ==>
      s.requests[i].startedBefore <= |s.started| && ServedLater(s, s.requests[i])
  }

  ghost predicate Inv(s: State) {
    && DistinctIds(s.enqueued)
    && DistinctKeys(s.queued)
    && HandlesMatch(s)
    && LockMatches(s)
    && NoLostWakeup(s)
    && InOrder(s)
    && Conserved(s)
    && CallbacksOnce(s)
    && TrailingEdge(s)
  }
}
