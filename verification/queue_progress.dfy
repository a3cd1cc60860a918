/** How long a queued job waits: a bound on the steps of the handles before it, over every
    interleaving. */
module QueueProgress {
  import opened Text
  import opened Queue
  import opened QueueLaws

  // ------------------------------------------------------------------
  // The work before a job
  // ------------------------------------------------------------------

  /** How many steps a waiting handle can take until it sleeps at this generation. */
  function StageCost(stage: Stage, generation: nat): nat {
    match stage
    case Held => 2
    case Armed(seen) => if seen < generation then 4 else 1
    case Asleep(seen) => if seen < generation then 3 else 0
    case _ => 0
  }

  function CostOf(stages: map<string, Stage>, generation: nat, id: string): nat {
    if id in stages then StageCost(stages[id], generation) else 0
  }

  /** The same for all jobs up to and with that one. */
  function CostTo(jobs: seq<Job>, id: string, stages: map<string, Stage>, generation: nat): nat
    requires HasId(jobs, id)
  {
    CostOf(stages, generation, jobs[0].id) +
    if jobs[0].id == id then 0 else CostTo(jobs[1..], id, stages, generation)
  }

  /** What those ahead of a queued job can still do, with nobody else moving: their steps at
      this generation, and those that each end of an active job allows. */
  function Delay(s: State, id: string): nat
    requires HasId(s.queued, id)
  {
    CostTo(s.queued, id, s.stages, s.generation) + Phases(Position(s.queued, id), |ActiveJobs(s)|)
  }

  function Phases(p: nat, active: nat): nat {
    (p + active) * (4 + 3 * p)
  }

  /** A step of the active job's handle, or of a waiting one at or before that position. */
  predicate Ahead(s: State, step: Step, id: string)
    requires HasId(s.queued, id)
  {
    match HandleOf(step)
    case None => false
    case Some(h) =>
      && !step.DropQueued? && !step.Callback?
      && (IsActive(s, h) || (HasId(s.queued, h) && Position(s.queued, h) <= Position(s.queued, id)))
  }

  /** Steps that others wake up for: requests, and jobs abandoned in the queue. */
  predicate Disturbs(step: Step) {
    step.Enqueue? || step.DropQueued?
  }

  lemma PhasesMono(p: nat, active: nat, q: nat, more: nat)
    requires p <= q && p + active <= q + more
    ensures Phases(p, active) <= Phases(q, more)
  {
    var x, y, a, b := p + active, q + more, 4 + 3 * p, 4 + 3 * q;
    assert x * a <= y * a <= y * b;
  }

  lemma PhasesEnd(p: nat)
    ensures Phases(p, 1) == Phases(p, 0) + 4 + 3 * p
  {
    assert (p + 1) * (4 + 3 * p) == p * (4 + 3 * p) + (4 + 3 * p);
  }

  // ------------------------------------------------------------------
  // How steps change it
  // ------------------------------------------------------------------

  predicate AtOrBefore(jobs: seq<Job>, h: string, id: string)
    requires HasId(jobs, id)
  {
    HasId(jobs, h) && Position(jobs, h) <= Position(jobs, id)
  }

  lemma AtOrBeforeTail(jobs: seq<Job>, h: string, id: string)
    requires HasId(jobs, id) && DistinctIds(jobs) && jobs[0].id != id
    ensures HasId(jobs[1..], id)
    ensures AtOrBefore(jobs, h, id) <==> h == jobs[0].id || AtOrBefore(jobs[1..], h, id)
    ensures HasId(jobs[1..], h) ==> h != jobs[0].id
  {
    HasIdTail(jobs);
    assert HasId(jobs, jobs[0].id);
    hide HasId;
  }

  lemma DistinctTail(jobs: seq<Job>)
    requires jobs != [] && DistinctIds(jobs)
    ensures DistinctIds(jobs[1..])
  {
  }

  lemma {:induction false} CostUpdate(jobs: seq<Job>, id: string, stages: map<string, Stage>, generation: nat,
                                      h: string, stage: Stage)
    requires HasId(jobs, id) && DistinctIds(jobs)
    ensures CostTo(jobs, id, stages[h := stage], generation)
        + (if AtOrBefore(jobs, h, id) then CostOf(stages, generation, h) else 0)
      == CostTo(jobs, id, stages, generation) + (if AtOrBefore(jobs, h, id) then StageCost(stage, generation) else 0)
    decreases |jobs|
  {
    if jobs[0].id == id {
      assert AtOrBefore(jobs, h, id) <==> h == id;
    } else {
      AtOrBeforeTail(jobs, h, id);
      DistinctTail(jobs);
      hide HasId, DistinctIds, AtOrBefore, StageCost;
      CostUpdate(jobs[1..], id, stages, generation, h, stage);
    }
  }

  lemma {:induction false} CostBump(jobs: seq<Job>, id: string, stages: map<string, Stage>, generation: nat)
    requires HasId(jobs, id)
    ensures CostTo(jobs, id, stages, generation + 1)
      <= CostTo(jobs, id, stages, generation) + 3 * (Position(jobs, id) + 1)
    decreases |jobs|
  {
    assert CostOf(stages, generation + 1, jobs[0].id) <= CostOf(stages, generation, jobs[0].id) + 3;
    if jobs[0].id != id {
      CostBump(jobs[1..], id, stages, generation);
    }
  }

  lemma {:induction false} CostAppend(jobs: seq<Job>, id: string, job: Job, stages: map<string, Stage>, generation: nat)
    requires HasId(jobs, id) && HasId(jobs + [job], id)
    ensures CostTo(jobs + [job], id, stages, generation) == CostTo(jobs, id, stages, generation)
    decreases |jobs|
  {
    assert (jobs + [job])[0] == jobs[0];
    if jobs[0].id != id {
      assert (jobs + [job])[1..] == jobs[1..] + [job];
      HasIdSnoc(jobs[1..], job);
      CostAppend(jobs[1..], id, job, stages, generation);
    }
  }

  lemma {:induction false} CostRetain(jobs: seq<Job>, id: string, other: string, stages: map<string, Stage>,
                                      generation: nat)
    requires HasId(jobs, id) && HasId(Retain(jobs, other), id)
    ensures CostTo(Retain(jobs, other), id, stages, generation) <= CostTo(jobs, id, stages, generation)
    decreases |jobs|
  {
    HasIdRetain(jobs, other);
    if jobs[0].id != id {
      HasIdRetain(jobs[1..], other);
      CostRetain(jobs[1..], id, other, stages, generation);
    }
  }

  // ------------------------------------------------------------------
  // One step
  // ------------------------------------------------------------------

  /** A handle's own step that leaves the queue alone. */
  lemma StageDelay(s: State, h: string, stage: Stage, id: string)
    requires DistinctIds(s.queued) && HasId(s.queued, id) && h in s.stages
    requires StageCost(stage, s.generation) < StageCost(s.stages[h], s.generation)
    ensures Delay(s.(stages := s.stages[h := stage]), id) + (if AtOrBefore(s.queued, h, id) then 1 else 0)
      <= Delay(s, id)
  {
    hide HasId, AtOrBefore, StageCost, DistinctIds;
    CostUpdate(s.queued, id, s.stages, s.generation, h, stage);
  }

  lemma StartDelay(s: State, id: string)
    requires DistinctIds(s.queued) && HasId(s.queued, id) && s.active.None? && s.queued[0].id != id
    requires s.queued[0].id in s.stages && s.stages[s.queued[0].id].Armed?
    ensures var t := LookNext(s, s.queued[0].id);
      HasId(t.queued, id) && Delay(t, id) + 1 <= Delay(s, id)
  {
    var h, rest := s.queued[0].id, s.queued[1..];
    HasIdTail(s.queued);
    DistinctTail(s.queued);
    CostUpdate(rest, id, s.stages, s.generation, h, Running);
    PhasesMono(Position(rest, id), 1, Position(s.queued, id), 0);
    hide HasId, DistinctIds, Phases;
  }

  /** The end of the active job: everybody may wake up, and there is one end less to come. */
  lemma EndDelay(s: State, stage: Stage, id: string)
    requires DistinctIds(s.queued) && HasId(s.queued, id) && s.active.Some?
    requires !HasId(s.queued, s.active.value.id)
    ensures var t := s.(active := None, generation := s.generation + 1, stages := s.stages[s.active.value.id := stage]);
      Delay(t, id) + 1 <= Delay(s, id)
  {
    CostUpdate(s.queued, id, s.stages, s.generation, s.active.value.id, stage);
    CostBump(s.queued, id, s.stages[s.active.value.id := stage], s.generation);
    PhasesEnd(Position(s.queued, id));
    hide HasId, DistinctIds, Phases, CostTo;
  }

  lemma JoinDelay(s: State, job: Job, id: string)
    requires DistinctIds(s.queued) && HasId(s.queued, id) && HasId(s.queued + [job], id)
    requires !HasId(s.queued, job.id)
    ensures var t := s.(queued := s.queued + [job], generation := s.generation + 1, stages := s.stages[job.id := Held]);
      Delay(t, id) <= Delay(s, id) + 3 * (Position(s.queued, id) + 1)
  {
    CostUpdate(s.queued, id, s.stages, s.generation, job.id, Held);
    CostBump(s.queued, id, s.stages[job.id := Held], s.generation);
    CostAppend(s.queued, id, job, s.stages[job.id := Held], s.generation + 1);
    PositionAppend(s.queued, id, job);
    hide HasId, DistinctIds, Phases, CostTo;
  }

  lemma LeaveDelay(s: State, h: string, id: string)
    requires DistinctIds(s.queued) && HasId(s.queued, id) && HasId(Retain(s.queued, h), id)
    ensures var t := s.(queued := Retain(s.queued, h), generation := s.generation + 1,
                        stages := s.stages[h := Releasing]);
      Delay(t, id) <= Delay(s, id) + 3 * (Position(s.queued, id) + 1)
  {
    var stages := s.stages[h := Releasing];
    CostUpdate(s.queued, id, s.stages, s.generation, h, Releasing);
    CostBump(s.queued, id, stages, s.generation);
    CostRetain(s.queued, id, h, stages, s.generation + 1);
    PositionRetain(s.queued, id, h);
    PhasesMono(Position(Retain(s.queued, h), id), |ActiveJobs(s)|, Position(s.queued, id), |ActiveJobs(s)|);
    hide HasId, DistinctIds, Phases, CostTo;
  }

  lemma DelayIgnores(s: State, t: State, id: string)
    requires HasId(s.queued, id) && t.queued == s.queued && t.stages == s.stages && t.generation == s.generation
    requires t.active == s.active
    ensures Delay(t, id) == Delay(s, id)
  {
  }

  /** Where a queued job's handle and the active one are. */
  lemma Handles(s: State, id: string)
    requires Inv(s)
    ensures DistinctIds(s.queued)
    ensures HasId(s.queued, id) ==> id in s.stages && Waiting(s.stages[id]) && !IsActive(s, id)
    ensures id in s.stages && Waiting(s.stages[id]) ==> HasId(s.queued, id)
    ensures StageIs(s, id, Running) ==> IsActive(s, id) && !HasId(s.queued, id)
    ensures s.active.Some? ==> StageIs(s, s.active.value.id, Running)
    ensures id in s.stages <==> HasId(s.enqueued, id)
  {
    QueueFacts(s);
    ActiveEnqueued(s);
    if HasId(s.queued, id) {
      HasIdMember(s.queued, id);
      HasIdMember(s.enqueued, id);
    }
    if s.active.Some? {
      HasIdMember(s.enqueued, s.active.value.id);
    }
    hide HasId, DistinctIds, DistinctKeys, LockMatches, NoLostWakeup, InOrder, Conserved, CallbacksOnce, TrailingEdge;
  }

  /** One step of any caller: those ahead use up the work before a job, and only disturbances
      add to it. */
  lemma StepDelay(s: State, step: Step, id: string)
    requires Inv(s) && Enabled(s, step)
    requires HasId(s.queued, id) && HasId(Next(s, step).queued, id)
    ensures Delay(Next(s, step), id) + (if Ahead(s, step, id) then 1 else 0)
      <= Delay(s, id) + (if Disturbs(step) then 3 * (Position(s.queued, id) + 1) else 0)
  {
    hide Inv, Delay, HasId;
    if step.Enqueue? {
      Handles(s, if step.created.Some? then step.created.value else id);
      EnqueueDelay(s, step, id);
    } else {
      Handles(s, HandleOf(step).value);
      match step
      case Arm(h) => StageDelay(s, h, Armed(s.generation), id);
      case Look(h) => LookDelay(s, h, id);
      case Wake(h) => StageDelay(s, h, Held, id);
      case Finish(h) => EndsDelay(s, step, h, id);
      case DropQueued(h) => AbandonDelay(s, h, id);
      case DropRunning(h) => EndsDelay(s, step, h, id);
      case Callback(h) => CallbackDelay(s, h, id);
    }
  }

  lemma EnqueueDelay(s: State, step: Step, id: string)
    requires step.Enqueue? && Enabled(s, step) && DistinctIds(s.queued)
    requires step.created.Some? ==> !HasId(s.queued, step.created.value)
    requires HasId(s.queued, id) && HasId(Next(s, step).queued, id)
    ensures Delay(Next(s, step), id) <= Delay(s, id) + 3 * (Position(s.queued, id) + 1)
  {
    hide Delay, HasId, DistinctIds, MatchingJob;
    var t := Next(s, step);
    if t.queued == s.queued && t.generation == s.generation {
      DelayIgnores(s, t, id);
    } else {
      var job := Job(step.key, step.scope, step.created.value);
      var joined := s.(queued := s.queued + [job], generation := s.generation + 1, stages := s.stages[job.id := Held]);
      JoinDelay(s, job, id);
      DelayIgnores(joined, t, id);
    }
  }

  lemma LookDelay(s: State, h: string, id: string)
    requires h in s.stages && s.stages[h].Armed? && DistinctIds(s.queued) && HasId(s.queued, h) && !IsActive(s, h)
    requires HasId(s.queued, id) && HasId(LookNext(s, h).queued, id)
    ensures Delay(LookNext(s, h), id) + (if Ahead(s, Look(h), id) then 1 else 0) <= Delay(s, id)
  {
    if HasTurn(s, h) {
      HasIdTail(s.queued);
      hide HasId, DistinctIds, Delay;
      StartDelay(s, id);
    } else {
      hide HasId, DistinctIds, Delay;
      StageDelay(s, h, Asleep(s.stages[h].seen), id);
    }
  }

  lemma EndsDelay(s: State, step: Step, h: string, id: string)
    requires step == Finish(h) || step == DropRunning(h)
    requires IsActive(s, h) && !HasId(s.queued, h) && DistinctIds(s.queued) && Enabled(s, step)
    requires HasId(s.queued, id) && HasId(Next(s, step).queued, id)
    ensures Delay(Next(s, step), id) + 1 <= Delay(s, id)
  {
    hide HasId, DistinctIds, Delay;
    var stage := if step.Finish? then Done else Releasing;
    EndDelay(s, stage, id);
    var t := s.(active := None, generation := s.generation + 1, stages := s.stages[h := stage]);
    DelayIgnores(t, Next(s, step), id);
  }

  lemma AbandonDelay(s: State, h: string, id: string)
    requires HasId(s.queued, h) && DistinctIds(s.queued)
    requires HasId(s.queued, id) && HasId(DropQueuedNext(s, h).queued, id)
    ensures Delay(DropQueuedNext(s, h), id) <= Delay(s, id) + 3 * (Position(s.queued, id) + 1)
  {
    hide HasId, DistinctIds, Delay;
    LeaveDelay(s, h, id);
    var t := s.(queued := Retain(s.queued, h), generation := s.generation + 1, stages := s.stages[h := Releasing]);
    DelayIgnores(t, DropQueuedNext(s, h), id);
  }

  lemma CallbackDelay(s: State, h: string, id: string)
    requires StageIs(s, h, Releasing) && DistinctIds(s.queued) && HasId(s.queued, id)
    ensures Delay(Next(s, Callback(h)), id) == Delay(s, id)
  {
    CostUpdate(s.queued, id, s.stages, s.generation, h, Done);
  }

  // ------------------------------------------------------------------
  // Whole runs
  // ------------------------------------------------------------------

  /** The steps of a run, while the job is queued, that those ahead of it take. */
  function AheadSteps(s: State, steps: seq<Step>, id: string): nat
    requires IsRun(s, steps)
    decreases |steps|
  {
    if steps == [] || !HasId(s.queued, id) then 0
    else (if Ahead(s, steps[0], id) then 1 else 0) + AheadSteps(Next(s, steps[0]), steps[1..], id)
  }

  function Disturbances(steps: seq<Step>): nat {
    if steps == [] then 0 else (if Disturbs(steps[0]) then 1 else 0) + Disturbances(steps[1..])
  }

  /** A job that has left the queue does not come back. */
  lemma NotRequeued(s: State, step: Step, id: string)
    requires Inv(s) && Enabled(s, step) && HasId(s.enqueued, id)
    ensures HasId(Next(s, step).enqueued, id)
    ensures HasId(Next(s, step).queued, id) ==> HasId(s.queued, id)
  {
    hide HasId;
    match step
    case Enqueue(_, _, _, _, _) =>
      hide Inv;
      JoinsFresh(s, step, id);
    case Look(h) =>
      Handles(s, h);
      hide Inv;
      StartShrinks(s, h, id);
    case DropQueued(h) =>
      hide Inv;
      HasIdRetain(s.queued, h);
      DroppedQueue(s, h);
    case _ =>
      hide Inv;
      QueueStays(s, step);
  }

  lemma DroppedQueue(s: State, h: string)
    ensures DropQueuedNext(s, h).enqueued == s.enqueued
    ensures DropQueuedNext(s, h).queued == s.queued || DropQueuedNext(s, h).queued == Retain(s.queued, h)
  {
    hide HasId;
  }

  lemma QueueStays(s: State, step: Step)
    requires Enabled(s, step) && !step.Enqueue? && !step.Look? && !step.DropQueued?
    ensures Next(s, step).enqueued == s.enqueued && Next(s, step).queued == s.queued
  {
  }

  lemma JoinsFresh(s: State, step: Step, id: string)
    requires step.Enqueue? && Enabled(s, step) && HasId(s.enqueued, id)
    ensures HasId(Next(s, step).enqueued, id)
    ensures HasId(Next(s, step).queued, id) ==> HasId(s.queued, id)
  {
    if step.created.Some? {
      HasIdSnoc(s.queued, Job(step.key, step.scope, step.created.value));
      HasIdSnoc(s.enqueued, Job(step.key, step.scope, step.created.value));
    }
    hide HasId, MatchingJob;
  }

  lemma StartShrinks(s: State, h: string, id: string)
    requires h in s.stages && s.stages[h].Armed? && DistinctIds(s.queued)
    ensures LookNext(s, h).enqueued == s.enqueued
    ensures HasId(LookNext(s, h).queued, id) ==> HasId(s.queued, id)
  {
    if s.queued != [] {
      HasIdTail(s.queued);
    }
    hide HasId, DistinctIds;
  }

  lemma {:induction false} NeverRequeued(s: State, steps: seq<Step>, id: string)
    requires Inv(s) && IsRun(s, steps) && HasId(s.enqueued, id)
    ensures HasId(After(s, steps).enqueued, id)
    ensures HasId(After(s, steps).queued, id) ==> HasId(s.queued, id)
    decreases |steps|
  {
    hide Inv, Next, Enabled, HasId;
    if steps != [] {
      StepKeeps(s, steps[0]);
      NotRequeued(s, steps[0], id);
      NeverRequeued(Next(s, steps[0]), steps[1..], id);
    }
  }

  /** Over any run through which a job stays queued, those ahead of it take no more steps than
      the work before it, and three per job ahead for each disturbance. */
  lemma {:induction false} WaitBounded(s: State, steps: seq<Step>, id: string)
    requires Inv(s) && IsRun(s, steps)
    requires HasId(s.queued, id) && HasId(After(s, steps).queued, id)
    ensures AheadSteps(s, steps, id) + Delay(After(s, steps), id)
      <= Delay(s, id) + 3 * (Position(s.queued, id) + 1) * Disturbances(steps)
    decreases |steps|
  {
    hide Inv, Next, Enabled, HasId, Delay, Ahead;
    if steps != [] {
      var t, rest := Next(s, steps[0]), steps[1..];
      Handles(s, id);
      StepKeeps(s, steps[0]);
      NotRequeued(s, steps[0], id);
      NeverRequeued(t, rest, id);
      StepDelay(s, steps[0], id);
      PositionNeverGrows(s, steps[0], id);
      WaitBounded(t, rest, id);
      Disturbed(Position(t.queued, id), Position(s.queued, id), Disturbances(rest), Disturbs(steps[0]));
    }
  }

  lemma Disturbed(q: nat, p: nat, rest: nat, disturbs: bool)
    requires q <= p
    ensures 3 * (q + 1) * rest + (if disturbs then 3 * (p + 1) else 0)
      <= 3 * (p + 1) * ((if disturbs then 1 else 0) + rest)
  {
    assert 3 * (q + 1) * rest <= 3 * (p + 1) * rest;
    assert 3 * (p + 1) * (1 + rest) == 3 * (p + 1) + 3 * (p + 1) * rest;
  }

  lemma {:induction false} CostBound(jobs: seq<Job>, id: string, stages: map<string, Stage>, generation: nat)
    requires HasId(jobs, id)
    ensures CostTo(jobs, id, stages, generation) <= 4 * (Position(jobs, id) + 1)
    decreases |jobs|
  {
    if jobs[0].id != id {
      CostBound(jobs[1..], id, stages, generation);
    }
  }

  lemma DelayBound(s: State, id: string)
    requires HasId(s.queued, id)
    ensures var p := Position(s.queued, id); Delay(s, id) <= (p + 1) * (3 * p + 8)
  {
    var p := Position(s.queued, id);
    CostBound(s.queued, id, s.stages, s.generation);
    PhasesMono(p, |ActiveJobs(s)|, p, 1);
    hide HasId, CostTo;
    assert (p + 1) * (4 + 3 * p) + 4 * (p + 1) == (p + 1) * (3 * p + 8);
  }

  /** Progress: a job queued at position p in a reachable state, and not abandoned in the queue,
      has started once those ahead of it have taken more than (p + 1)(3p + 8) steps, and 3(p + 1)
      for each request or abandoned job meanwhile. */
  lemma StartsWithin(earlier: seq<Step>, steps: seq<Step>, id: string)
    requires IsRun(INITIAL, earlier) && IsRun(After(INITIAL, earlier), steps)
    requires HasId(After(INITIAL, earlier).queued, id)
    ensures var s, u := After(INITIAL, earlier), After(After(INITIAL, earlier), steps);
      var p := Position(s.queued, id);
      id !in u.dropped && AheadSteps(s, steps, id) > (p + 1) * (3 * p + 8) + 3 * (p + 1) * Disturbances(steps) ==>
        HasId(u.started, id)
  {
    hide Inv, HasId, Delay, Ahead, Next, Enabled;
    var s := After(INITIAL, earlier);
    var u := After(s, steps);
    QueueInvariant(earlier);
    RunKeeps(s, steps);
    Handles(s, id);
    NeverRequeued(s, steps, id);
    DelayBound(s, id);
    if HasId(u.queued, id) {
      WaitBounded(s, steps, id);
    } else {
      LeftQueue(u, id);
    }
  }

  /** A job that is not queued has started or was abandoned in the queue. */
  lemma LeftQueue(s: State, id: string)
    requires Inv(s) && HasId(s.enqueued, id) && !HasId(s.queued, id)
    ensures id in s.dropped || HasId(s.started, id)
  {
    HasIdMember(s.enqueued, id);
    HasIdMember(s.queued, id);
    HasIdMember(s.started, id);
    WithoutMembers(s.enqueued, s.dropped);
    hide HasId, Without, DistinctIds;
    var j :| j in s.enqueued && j.id == id;
    if id !in s.dropped {
      assert j in s.started + s.queued;
    }
  }

  /** And while it is queued, one of those ahead can always go on, by a step other than
      giving up. */
  lemma SomeoneAheadCanGo(s: State, id: string) returns (step: Step)
    requires Inv(s) && HasId(s.queued, id)
    ensures Enabled(s, step) && Ahead(s, step, id) && !step.DropRunning?
  {
    Handles(s, id);
    if s.active.Some? {
      step := Finish(s.active.value.id);
    } else {
      var head := s.queued[0].id;
      HeadIsWaiting(s);
      assert HasId(s.queued, head) && Position(s.queued, head) == 0;
      hide HasId, DistinctIds, Position;
      step := match s.stages[head] case Held => Arm(head) case Armed(_) => Look(head) case _ => Wake(head);
    }
  }
}
