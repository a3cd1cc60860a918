/** The queue by what its callers see: what each step does to the guarded fields, how the recorded
    history follows from these, and by which of a run's steps a request is served. */
module QueueHistory {
  import opened Text
  import opened Scope
  import opened Queue
  import opened QueueLaws

  // ------------------------------------------------------------------
  // What each step does
  // ------------------------------------------------------------------

  /** What the mutex guards. */
  datatype Guarded = Guarded(active: Option<Job>, queued: seq<Job>, locked: bool, generation: nat)

  function GuardedOf(s: State): Guarded {
    Guarded(s.active, s.queued, s.locked, s.generation)
  }

  ghost predicate KeyQueued(jobs: seq<Job>, key: Key) {
    exists j :: j in jobs && j.key == key
  }

  /** An enqueue joins a queued job of its key and then changes nothing; else a refused lock
      changes nothing, a job that cannot be created leaves at most the lock, if there is other
      work, and a new job goes last. */
  lemma EnqueueExact(s: State, key: Key, scope: Scope, mutating: bool, lockFree: bool, created: Option<string>)
    requires Enabled(s, Enqueue(key, scope, mutating, lockFree, created))
    ensures var was, now := GuardedOf(s), GuardedOf(Next(s, Enqueue(key, scope, mutating, lockFree, created)));
      if KeyQueued(s.queued, key) || (mutating && !s.locked && !lockFree) then now == was
      else if created.None? then
        now == was.(locked := s.locked || (mutating && (s.active.Some? || s.queued != [])))
      else
        now == Guarded(s.active, s.queued + [Job(key, scope, created.value)], s.locked || mutating, s.generation + 1)
  {
  }

  /** Looking at the queue starts the first job if it is the handle's own and nothing is active. */
  lemma LookExact(s: State, id: string)
    requires Enabled(s, Look(id))
    ensures var was, now := GuardedOf(s), GuardedOf(Next(s, Look(id)));
      now ==
        if s.active.None? && s.queued != [] && s.queued[0].id == id
        then was.(active := Some(s.queued[0]), queued := s.queued[1..]) else was
  {
  }

  /** The end of the running job, finished or dropped, frees the place, wakes the waiters, and
      gives up the lock if nothing is queued. */
  lemma EndExact(s: State, id: string, dropped: bool)
    requires Inv(s) && Enabled(s, if dropped then DropRunning(id) else Finish(id))
    ensures s.active.Some? && s.active.value.id == id
    ensures GuardedOf(Next(s, if dropped then DropRunning(id) else Finish(id)))
      == Guarded(None, s.queued, s.locked && s.queued != [], s.generation + 1)
  {
    hide DistinctIds, DistinctKeys, LockMatches, NoLostWakeup, InOrder, Conserved, CallbacksOnce, TrailingEdge;
  }

  /** A job given up in the queue leaves it, and the others stay in order. */
  lemma DropExact(s: State, id: string) returns (i: nat)
    requires Inv(s) && Enabled(s, DropQueued(id))
    ensures i < |s.queued| && s.queued[i].id == id
    ensures var rest := s.queued[..i] + s.queued[i + 1..];
      GuardedOf(Next(s, DropQueued(id)))
        == Guarded(s.active, rest, s.locked && (s.active.Some? || rest != []), s.generation + 1)
  {
    hide DistinctKeys, LockMatches, NoLostWakeup, Conserved, CallbacksOnce, TrailingEdge, Retain, Without, JobOf,
      DistinctIds;
    i := QueuedAt(s, id);
    RetainCuts(s.queued, i);
  }

  lemma QueuedAt(s: State, id: string) returns (i: nat)
    requires Inv(s) && Enabled(s, DropQueued(id))
    ensures i < |s.queued| && s.queued[i].id == id && HasId(s.queued, id) && DistinctIds(s.queued)
  {
    hide DistinctKeys, LockMatches, NoLostWakeup, Conserved, CallbacksOnce, TrailingEdge, Without;
    QueueFacts(s);
    i :| 0 <= i < |s.queued| && s.queued[i].id == id;
  }

  lemma {:induction false} RetainCuts(jobs: seq<Job>, i: nat)
    requires i < |jobs| && DistinctIds(jobs)
    ensures Retain(jobs, jobs[i].id) == jobs[..i] + jobs[i + 1..]
  {
    if i > 0 {
      RetainCuts(jobs[1..], i - 1);
      assert jobs[1..][..i - 1] == jobs[1..i] && jobs[1..][i..] == jobs[i + 1..];
    } else {
      RetainNone(jobs[1..], jobs[0].id);
    }
  }

  lemma {:induction false} RetainNone(jobs: seq<Job>, id: string)
    requires forall i :: 0 <= i < |jobs| ==> jobs[i].id != id
    ensures Retain(jobs, id) == jobs
  {
    if jobs != [] {
      RetainNone(jobs[1..], id);
    }
  }

  /** The steps outside the mutex change nothing that it guards. */
  lemma OutsideExact(s: State, step: Step)
    requires Enabled(s, step) && (step.Arm? || step.Wake? || step.Callback?)
    ensures GuardedOf(Next(s, step)) == GuardedOf(s)
  {
  }

  // ------------------------------------------------------------------
  // The history
  // ------------------------------------------------------------------

  /** The recorded history is that of the guarded fields and the steps: what joined the queue,
      what became active, what ended and how, and whose callback ran. */
  lemma HistoryExact(s: State, step: Step)
    requires Inv(s) && Enabled(s, step)
    ensures var t := Next(s, step);
      && t.enqueued == s.enqueued + (if |t.queued| > |s.queued| then [t.queued[|s.queued|]] else [])
      && t.started == s.started + (if step.Look? && t.active != s.active then ActiveJobs(t) else [])
      && t.finished == s.finished + (if step.Finish? then ActiveJobs(s) else [])
      && t.dropped == s.dropped + (if step.DropQueued? then {step.id} else {})
      && t.callbacks == s.callbacks + (if step.Callback? then [step.id] else [])
      && s.released <= t.released
      && (step.DropRunning? ==> t.released == s.released + ActiveJobs(s))
      && (step.DropQueued? ==>
            |t.released| == |s.released| + 1 && t.released[|s.released|] in s.queued
            && t.released[|s.released|].id == step.id)
      && (!step.DropRunning? && !step.DropQueued? ==> t.released == s.released)
  {
    hide Inv, MatchingJob, Retain, JobOf, HasId;
    match step
    case DropQueued(id) =>
      RetainFewer(s.queued, id);
      HandlesTell(s, id);
    case Finish(id) =>
      HandlesTell(s, id);
    case DropRunning(id) =>
      HandlesTell(s, id);
    case _ =>
  }

  /** A handle that waits has its job in the queue, and one that runs has it active. */
  lemma HandlesTell(s: State, id: string)
    requires Inv(s)
    ensures id in s.stages && Waiting(s.stages[id]) ==> HasId(s.queued, id)
    ensures id in s.stages && s.stages[id].Running? ==> IsActive(s, id)
  {
    hide DistinctIds, DistinctKeys, LockMatches, NoLostWakeup, InOrder, Conserved, CallbacksOnce, TrailingEdge, HasId;
  }

  lemma {:induction false} RetainFewer(jobs: seq<Job>, id: string)
    ensures |Retain(jobs, id)| <= |jobs|
  {
    if jobs != [] {
      RetainFewer(jobs[1..], id);
    }
  }

  // ------------------------------------------------------------------
  // By which steps a request is served
  // ------------------------------------------------------------------

  /** One of the steps starts the job, or gives it up in the queue. */
  predicate ServedIn(s: State, steps: seq<Step>, job: Job)
    requires IsRun(s, steps)
    decreases |steps|
  {
    && steps != []
    && (|| (steps[0] == Look(job.id) && s.active.None? && Next(s, steps[0]).active == Some(job))
        || steps[0] == DropQueued(job.id)
        || ServedIn(Next(s, steps[0]), steps[1..], job))
  }

  lemma StaysOrServed(s: State, step: Step, job: Job)
    requires Inv(s) && Enabled(s, step) && job in s.queued
    ensures
      || job in Next(s, step).queued
      || (step == Look(job.id) && s.active.None? && Next(s, step).active == Some(job))
      || step == DropQueued(job.id)
  {
    hide Inv, Retain, JobOf;
    if step.DropQueued? {
      var i := DropExact(s, step.id);
      assert s.queued == s.queued[..i] + [s.queued[i]] + s.queued[i + 1..];
    }
  }

  lemma {:induction false} ServedFrom(s: State, steps: seq<Step>, job: Job)
    requires Inv(s) && IsRun(s, steps) && job in s.queued
    ensures job in After(s, steps).queued || ServedIn(s, steps, job)
    decreases |steps|
  {
    hide Inv, Next, Enabled;
    if steps != [] {
      StaysOrServed(s, steps[0], job);
      StepKeeps(s, steps[0]);
      if job in Next(s, steps[0]).queued {
        ServedFrom(Next(s, steps[0]), steps[1..], job);
      }
    }
  }

  /** Trailing edge, told by the steps alone: the job a request is answered with has its key and
      is queued, not active; and unless it is queued still, one of the later steps starts it or
      gives it up. */
  lemma ServedBySteps(earlier: seq<Step>, request: Step, later: seq<Step>)
    requires IsRun(INITIAL, earlier) && request.Enqueue? && Enabled(After(INITIAL, earlier), request)
    requires IsRun(Next(After(INITIAL, earlier), request), later)
    requires Answer(After(INITIAL, earlier), request).Some?
    ensures var s := After(INITIAL, earlier);
      var job := Answer(s, request).value;
      && job.key == request.key && job in Next(s, request).queued && !IsActive(Next(s, request), job.id)
      && (job !in s.queued ==> request.created == Some(job.id) && job.scope == request.scope)
      && (job in After(Next(s, request), later).queued || ServedIn(Next(s, request), later, job))
  {
    var s := After(INITIAL, earlier);
    QueueInvariant(earlier);
    AnswerQueued(s, request);
    StepKeeps(s, request);
    ServedFrom(Next(s, request), later, Answer(s, request).value);
    hide Inv;
  }

  // ------------------------------------------------------------------
  // Three runs
  // ------------------------------------------------------------------

  /** A job that is started and given up while it runs. */
  lemma AbandonedRun(scope: Scope, id: string)
    ensures var steps :=
        [Enqueue(Reconcile(scope), scope, true, true, Some(id)), Arm(id), Look(id), DropRunning(id), Callback(id)];
      && IsRun(INITIAL, steps)
      && After(INITIAL, steps).callbacks == [id] && GuardedOf(After(INITIAL, steps)) == Guarded(None, [], false, 2)
  {
    var first := Enqueue(Reconcile(scope), scope, true, true, Some(id));
    var a := Next(INITIAL, first);
    var b := Next(a, Arm(id));
    var c := Next(b, Look(id));
    FirstPart(scope, id);
    AbandonedEnd(c, id);
    hide IsRun, After, Next, Enabled;
    RunOne(b, Look(id), [DropRunning(id), Callback(id)]);
    RunOne(a, Arm(id), [Look(id)] + [DropRunning(id), Callback(id)]);
    RunOne(INITIAL, first, [Arm(id)] + ([Look(id)] + [DropRunning(id), Callback(id)]));
    assert [first] + ([Arm(id)] + ([Look(id)] + [DropRunning(id), Callback(id)])) ==
      [first, Arm(id), Look(id), DropRunning(id), Callback(id)];
  }

  lemma AbandonedEnd(c: State, id: string)
    requires c.active.Some? && c.active.value.id == id && c.queued == [] && c.locked && c.generation == 1
    requires StageIs(c, id, Running) && c.callbacks == []
    ensures var rest := [DropRunning(id), Callback(id)];
      && IsRun(c, rest) && After(c, rest).callbacks == [id]
      && GuardedOf(After(c, rest)) == Guarded(None, [], false, 2)
  {
    RunOne(Next(c, DropRunning(id)), Callback(id), []);
    RunOne(c, DropRunning(id), [Callback(id)]);
  }

  /** A job that is given up before it starts. */
  lemma CancelledRun(scope: Scope, id: string)
    ensures var steps :=
        [Enqueue(Reconcile(scope), scope, true, true, Some(id)), DropQueued(id), Callback(id)];
      && IsRun(INITIAL, steps)
      && After(INITIAL, steps).callbacks == [id] && GuardedOf(After(INITIAL, steps)) == Guarded(None, [], false, 2)
  {
    var job := Job(Reconcile(scope), scope, id);
    var first := Enqueue(Reconcile(scope), scope, true, true, Some(id));
    var a := Next(INITIAL, first);
    assert a.queued == [job] && a.queued[0].id == id;
    var b := Next(a, DropQueued(id));
    assert Retain([job], id) == [] by {
      assert [job][1..] == [];
    }
    RunOne(b, Callback(id), []);
    RunOne(a, DropQueued(id), [Callback(id)]);
    RunOne(INITIAL, first, [DropQueued(id), Callback(id)]);
  }

  /** A second job that falls asleep behind the first, is woken by its end, and starts. */
  lemma WokenRun(scope: Scope, other: Scope, id: string, next: string)
    requires scope != other && id != next
    ensures var steps :=
        [Enqueue(Reconcile(scope), scope, true, true, Some(id)), Arm(id), Look(id),
         Enqueue(Reconcile(other), other, true, false, Some(next)), Arm(next), Look(next),
         Finish(id), Wake(next), Arm(next), Look(next)];
      && IsRun(INITIAL, steps)
      && GuardedOf(After(INITIAL, steps)) == Guarded(Some(Job(Reconcile(other), other, next)), [], true, 3)
  {
    var first, second := Enqueue(Reconcile(scope), scope, true, true, Some(id)),
                         Enqueue(Reconcile(other), other, true, false, Some(next));
    var a := Next(INITIAL, first);
    var b := Next(a, Arm(id));
    var c := Next(b, Look(id));
    FirstPart(scope, id);
    JoinsBusy(c, other, id, next);
    var d := Next(c, second);
    SecondPart(d, id, Job(Reconcile(other), other, next));
    hide IsRun, After, Next, Enabled;
    var rest := [Arm(next), Look(next), Finish(id), Wake(next), Arm(next), Look(next)];
    RunOne(c, second, rest);
    RunOne(b, Look(id), [second] + rest);
    RunOne(a, Arm(id), [Look(id)] + ([second] + rest));
    RunOne(INITIAL, first, [Arm(id)] + ([Look(id)] + ([second] + rest)));
    assert [first] + ([Arm(id)] + ([Look(id)] + ([second] + rest))) ==
      [first, Arm(id), Look(id), second, Arm(next), Look(next), Finish(id), Wake(next), Arm(next), Look(next)];
  }

  lemma FirstPart(scope: Scope, id: string)
    ensures var first := Enqueue(Reconcile(scope), scope, true, true, Some(id));
      && Enabled(INITIAL, first)
      && Enabled(Next(INITIAL, first), Arm(id))
      && Enabled(Next(Next(INITIAL, first), Arm(id)), Look(id))
      && var c := Next(Next(Next(INITIAL, first), Arm(id)), Look(id));
      && GuardedOf(c) == Guarded(Some(Job(Reconcile(scope), scope, id)), [], true, 1)
      && c.enqueued == [Job(Reconcile(scope), scope, id)] && StageIs(c, id, Running) && c.callbacks == []
  {
  }

  lemma JoinsBusy(c: State, other: Scope, id: string, next: string)
    requires id != next && c.active.Some? && c.active.value.id == id && c.queued == [] && c.locked && c.generation == 1
    requires |c.enqueued| == 1 && c.enqueued[0].id == id && StageIs(c, id, Running)
    ensures var second := Enqueue(Reconcile(other), other, true, false, Some(next));
      && Enabled(c, second)
      && GuardedOf(Next(c, second)) == Guarded(c.active, [Job(Reconcile(other), other, next)], true, 2)
      && StageIs(Next(c, second), id, Running) && StageIs(Next(c, second), next, Held)
  {
  }

  lemma SecondPart(d: State, id: string, job: Job)
    requires d.active.Some? && d.active.value.id == id && d.queued == [job] && d.locked && d.generation == 2
    requires id != job.id && StageIs(d, id, Running) && StageIs(d, job.id, Held)
    ensures var rest := [Arm(job.id), Look(job.id), Finish(id), Wake(job.id), Arm(job.id), Look(job.id)];
      IsRun(d, rest) && GuardedOf(After(d, rest)) == Guarded(Some(job), [], true, 3)
  {
    var next := job.id;
    var e := Next(d, Arm(next));
    var f := Next(e, Look(next));
    var g := Next(f, Finish(id));
    assert g.active.None? && g.queued == [job] && g.locked && g.generation == 3;
    var h := Next(g, Wake(next));
    var i := Next(h, Arm(next));
    RunOne(i, Look(next), []);
    RunOne(h, Arm(next), [Look(next)]);
    RunOne(g, Wake(next), [Arm(next), Look(next)]);
    RunOne(f, Finish(id), [Wake(next), Arm(next), Look(next)]);
    RunOne(e, Look(next), [Finish(id), Wake(next), Arm(next), Look(next)]);
    RunOne(d, Arm(next), [Look(next), Finish(id), Wake(next), Arm(next), Look(next)]);
  }
}
