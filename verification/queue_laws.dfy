/** Every run of the queue keeps its invariant. */
module QueueLaws {
  import opened Text
  import opened Scope
  import opened Queue

  // ------------------------------------------------------------------
  // Filtering
  // ------------------------------------------------------------------

  lemma {:induction false} RetainConcat(a: seq<Job>, b: seq<Job>, id: string)
    ensures Retain(a + b, id) == Retain(a, id) + Retain(b, id)
  {
    if a == [] {
      assert a + b == b;
    } else {
      assert (a + b)[1..] == a[1..] + b;
      RetainConcat(a[1..], b, id);
    }
  }

  lemma {:induction false} RetainMembers(jobs: seq<Job>, id: string)
    ensures forall j :: j in Retain(jobs, id) <==> j in jobs && j.id != id
    ensures !HasId(jobs, id) ==> Retain(jobs, id) == jobs
  {
    if jobs != [] {
      RetainMembers(jobs[1..], id);
      assert forall j :: j in jobs <==> j == jobs[0] || j in jobs[1..];
      if !HasId(jobs, id) {
        assert jobs[0].id != id;
        assert !HasId(jobs[1..], id);
      }
    }
  }

  lemma {:induction false} WithoutSnoc(jobs: seq<Job>, job: Job, dropped: set<string>)
    ensures Without(jobs + [job], dropped) == Without(jobs, dropped) + (if job.id in dropped then [] else [job])
  {
    if jobs != [] {
      assert (jobs + [job])[1..] == jobs[1..] + [job];
      WithoutSnoc(jobs[1..], job, dropped);
    }
  }

  lemma {:induction false} WithoutMore(jobs: seq<Job>, dropped: set<string>, id: string)
    ensures Without(jobs, dropped + {id}) == Retain(Without(jobs, dropped), id)
  {
    if jobs != [] {
      WithoutMore(jobs[1..], dropped, id);
    }
  }

  lemma {:induction false} WithoutMembers(jobs: seq<Job>, dropped: set<string>)
    ensures forall j :: j in Without(jobs, dropped) <==> j in jobs && j.id !in dropped
  {
    if jobs != [] {
      WithoutMembers(jobs[1..], dropped);
      assert forall j :: j in jobs <==> j == jobs[0] || j in jobs[1..];
    }
  }

  lemma {:induction false} WithoutDistinct(jobs: seq<Job>, dropped: set<string>)
    requires DistinctIds(jobs)
    ensures DistinctIds(Without(jobs, dropped))
  {
    if jobs != [] {
      WithoutDistinct(jobs[1..], dropped);
      WithoutMembers(jobs[1..], dropped);
      var rest := Without(jobs[1..], dropped);
      forall i | 0 <= i < |rest| ensures rest[i].id != jobs[0].id {
        assert rest[i] in jobs[1..];
      }
    }
  }

  lemma {:induction false} RetainOne(jobs: seq<Job>, id: string)
    requires DistinctIds(jobs) && HasId(jobs, id)
    ensures multiset(jobs) == multiset(Retain(jobs, id)) + multiset{JobOf(jobs, id)}
  {
    assert jobs == [jobs[0]] + jobs[1..];
    if jobs[0].id == id {
      assert !HasId(jobs[1..], id);
      RetainMembers(jobs[1..], id);
    } else {
      var i :| 0 <= i < |jobs| && jobs[i].id == id;
      assert jobs[1..][i - 1].id == id;
      RetainOne(jobs[1..], id);
    }
  }

  lemma {:induction false} RetainDistinctKeys(jobs: seq<Job>, id: string)
    requires DistinctKeys(jobs)
    ensures DistinctKeys(Retain(jobs, id))
  {
    if jobs != [] {
      RetainDistinctKeys(jobs[1..], id);
      RetainMembers(jobs[1..], id);
      var rest := Retain(jobs[1..], id);
      forall i | 0 <= i < |rest| ensures rest[i].key != jobs[0].key {
        assert rest[i] in jobs[1..];
      }
    }
  }

  lemma HasIdMember(jobs: seq<Job>, id: string)
    ensures HasId(jobs, id) <==> exists j :: j in jobs && j.id == id
  {
    if j :| j in jobs && j.id == id {
      var i :| 0 <= i < |jobs| && jobs[i] == j;
    }
  }

  lemma HasIdSnoc(jobs: seq<Job>, job: Job)
    ensures forall id :: HasId(jobs + [job], id) <==> HasId(jobs, id) || id == job.id
  {
    forall id ensures HasId(jobs + [job], id) <==> HasId(jobs, id) || id == job.id {
      HasIdMember(jobs + [job], id);
      HasIdMember(jobs, id);
    }
  }

  lemma HasIdRetain(jobs: seq<Job>, id: string)
    ensures forall other :: HasId(Retain(jobs, id), other) <==> HasId(jobs, other) && other != id
  {
    RetainMembers(jobs, id);
    forall other ensures HasId(Retain(jobs, id), other) <==> HasId(jobs, other) && other != id {
      HasIdMember(jobs, other);
      HasIdMember(Retain(jobs, id), other);
    }
  }

  lemma HasIdTail(jobs: seq<Job>)
    requires jobs != [] && DistinctIds(jobs)
    ensures forall id :: HasId(jobs[1..], id) <==> HasId(jobs, id) && id != jobs[0].id
  {
    forall id ensures HasId(jobs[1..], id) <==> HasId(jobs, id) && id != jobs[0].id {
      if HasId(jobs[1..], id) {
        var i :| 0 <= i < |jobs| - 1 && jobs[1..][i].id == id;
        assert jobs[i + 1].id == id;
      }
      if HasId(jobs, id) && id != jobs[0].id {
        var i :| 0 <= i < |jobs| && jobs[i].id == id;
        assert jobs[1..][i - 1].id == id;
      }
    }
  }

  lemma DistinctParts(a: seq<Job>, b: seq<Job>)
    requires DistinctIds(a + b)
    ensures DistinctIds(a) && DistinctIds(b)
    ensures forall j :: j in b ==> !HasId(a, j.id)
  {
    var all := a + b;
    forall i, j | 0 <= i < j < |b| ensures b[i].id != b[j].id {
      assert all[|a| + i] == b[i] && all[|a| + j] == b[j];
    }
    forall i, j | 0 <= i < j < |a| ensures a[i].id != a[j].id {
      assert all[i] == a[i] && all[j] == a[j];
    }
    forall j | j in b ensures !HasId(a, j.id) {
      var i :| 0 <= i < |b| && b[i] == j;
      forall k | 0 <= k < |a| ensures a[k].id != j.id {
        assert all[k] == a[k] && all[|a| + i] == j;
      }
    }
  }

  /** The queue is part of the enqueued jobs, in order, so its ids are distinct; none of
      them has started. */
  lemma QueueFacts(s: State)
    requires DistinctIds(s.enqueued) && InOrder(s)
    ensures DistinctIds(s.queued) && DistinctIds(s.started)
    ensures forall j :: j in s.queued ==> j in s.enqueued && !HasId(s.started, j.id)
    ensures forall j :: j in s.started ==> j in s.enqueued
  {
    WithoutDistinct(s.enqueued, s.dropped);
    WithoutMembers(s.enqueued, s.dropped);
    hide Without, HasId, DistinctIds;
    var all := s.started + s.queued;
    DistinctParts(s.started, s.queued);
    assert forall j :: j in s.queued || j in s.started ==> j in all;
  }

  // ------------------------------------------------------------------
  // Every step keeps the invariant
  // ------------------------------------------------------------------

  /** A step that changes only a waiting handle's stage, or runs a callback's bookkeeping. */
  lemma StageStep(s: State, id: string, stage: Stage)
    requires Inv(s) && id in s.stages && Waiting(s.stages[id]) && Waiting(stage)
    requires stage.Armed? ==> stage.seen <= s.generation
    requires stage.Asleep? ==> stage.seen <= s.generation && !HasTurn(s, id)
    ensures Inv(s.(stages := s.stages[id := stage]))
  {
    hide Without, HasId, Conserved, DistinctIds, DistinctKeys, ServedLater;
    var t := s.(stages := s.stages[id := stage]);
    assert forall i :: 0 <= i < |s.requests| ==>
      ServedLater(s, s.requests[i]) && (ServedLater(s, s.requests[i]) ==> ServedLater(t, s.requests[i])) by {
      SameServed(s, t);
    }
    assert Conserved(t) by {
      SameConserved(s, t);
    }
  }

  /** A notification puts every sleeper's generation in the past. */
  lemma NotifyWakes(s: State, t: State, id: string)
    requires NoLostWakeup(s) && t.generation == s.generation + 1
    requires id in t.stages && !t.stages[id].Armed? && !t.stages[id].Asleep?
    requires t.stages == s.stages[id := t.stages[id]]
    ensures NoLostWakeup(t)
  {
  }

  /** A start makes the queue busy, so it is no sleeper's turn. */
  lemma StartWakes(s: State, t: State, id: string)
    requires NoLostWakeup(s) && t.generation == s.generation && t.active.Some?
    requires t.stages == s.stages[id := Running]
    ensures NoLostWakeup(t)
  {
  }

  lemma SameServed(s: State, t: State)
    requires t.queued == s.queued && t.dropped == s.dropped && t.started == s.started
    ensures forall r :: ServedLater(s, r) <==> ServedLater(t, r)
  {
  }

  lemma SameConserved(s: State, t: State)
    requires t.queued == s.queued && t.active == s.active && t.finished == s.finished
    requires t.released == s.released && t.enqueued == s.enqueued
    ensures Conserved(s) <==> Conserved(t)
  {
  }

  lemma CallbackKeeps(s: State, id: string)
    requires Inv(s) && Enabled(s, Callback(id))
    ensures Inv(Next(s, Callback(id)))
  {
    hide Without, HasId, Conserved, DistinctIds, DistinctKeys, ServedLater;
    var t := Next(s, Callback(id));
    SameConserved(s, t);
    SameServed(s, t);
    assert id !in s.callbacks;
  }

  /** Look, when it is the handle's turn: the head of the queue becomes active. */
  lemma StartHandles(s: State, t: State, job: Job)
    requires HandlesMatch(s) && DistinctIds(s.queued)
    requires s.active.None? && s.queued != [] && job == s.queued[0]
    requires t.active == Some(job) && t.queued == s.queued[1..] && t.enqueued == s.enqueued
    requires job.id in s.stages && t.stages == s.stages[job.id := Running]
    ensures HandlesMatch(t)
  {
    HasIdTail(s.queued);
    hide HasId;
  }

  lemma StartOrder(s: State, t: State, job: Job)
    requires InOrder(s) && s.queued != [] && job == s.queued[0]
    requires t.queued == s.queued[1..] && t.started == s.started + [job]
    requires t.enqueued == s.enqueued && t.dropped == s.dropped
    ensures InOrder(t)
  {
    hide HasId;
    assert s.queued == [job] + s.queued[1..];
    assert t.started + t.queued == s.started + s.queued;
  }

  lemma KeptCallbacks(s: State, t: State, id: string)
    requires CallbacksOnce(s) && id in s.stages && (Waiting(s.stages[id]) || s.stages[id].Running?)
    requires t.stages == s.stages[id := Running] || t.stages == s.stages[id := Done]
    requires t.released == s.released && t.callbacks == s.callbacks
    ensures CallbacksOnce(t)
  {
    hide HasId;
  }

  lemma StartConserved(s: State, t: State, job: Job)
    requires Conserved(s) && s.active.None? && s.queued != [] && job == s.queued[0]
    requires t.active == Some(job) && t.queued == s.queued[1..] && t.enqueued == s.enqueued
    requires t.finished == s.finished && t.released == s.released
    ensures Conserved(t)
  {
    assert s.queued == [job] + s.queued[1..];
  }

  lemma StartServes(s: State, t: State, job: Job)
    requires TrailingEdge(s) && s.queued != [] && job == s.queued[0]
    requires t.queued == s.queued[1..] && t.started == s.started + [job] && t.dropped == s.dropped
    requires t.requests == s.requests
    ensures TrailingEdge(t)
  {
    forall i | 0 <= i < |t.requests| ensures ServedLater(t, t.requests[i]) {
      var r := s.requests[i];
      if r.job in s.queued {
        if r.job == job {
          assert t.started[|s.started|] == r.job;
        } else {
          assert r.job in s.queued[1..];
        }
      } else if r.job.id !in s.dropped {
        var k :| r.startedBefore <= k < |s.started| && s.started[k] == r.job;
        assert t.started[k] == r.job;
      }
    }
  }

  lemma TailDistinctKeys(jobs: seq<Job>)
    requires jobs != [] && DistinctKeys(jobs)
    ensures DistinctKeys(jobs[1..])
  {
    var tail := jobs[1..];
    forall i, j | 0 <= i < j < |tail| ensures tail[i].key != tail[j].key {
      assert tail[i] == jobs[i + 1] && tail[j] == jobs[j + 1];
    }
  }

  lemma LookKeeps(s: State, id: string)
    requires Inv(s) && Enabled(s, Look(id))
    ensures Inv(Next(s, Look(id)))
  {
    if !HasTurn(s, id) {
      StageStep(s, id, Asleep(s.stages[id].seen));
    } else {
      QueueFacts(s);
      var job := s.queued[0];
      assert id in s.stages && job.id == id;
      hide Without, HasId, DistinctIds, DistinctKeys, ServedLater, HandlesMatch, Conserved, InOrder, TrailingEdge,
        NoLostWakeup, CallbacksOnce;
      var t := Next(s, Look(id));
      StartWakes(s, t, id);
      KeptCallbacks(s, t, id);
      StartHandles(s, t, job);
      StartOrder(s, t, job);
      StartConserved(s, t, job);
      StartServes(s, t, job);
      TailDistinctKeys(s.queued);
    }
  }

  // ------------------------------------------------------------------

  /** Finish and the drop of a running handle: the active job leaves, the queue stays. */
  lemma LeaveHandles(s: State, t: State, id: string, stage: Stage)
    requires HandlesMatch(s) && id in s.stages && IsActive(s, id) && (stage.Done? || stage.Releasing?)
    requires t.active == None && t.queued == s.queued && t.enqueued == s.enqueued
    requires t.stages == s.stages[id := stage]
    ensures HandlesMatch(t)
  {
    hide HasId;
    assert !HasId(s.queued, id);
  }

  lemma LeaveOrderAndServes(s: State, t: State)
    requires InOrder(s) && TrailingEdge(s)
    requires t.queued == s.queued && t.started == s.started && t.enqueued == s.enqueued
    requires t.dropped == s.dropped && t.requests == s.requests
    ensures InOrder(t) && TrailingEdge(t)
  {
    hide Without;
    SameServed(s, t);
  }

  /** A dropped handle's job is released and its callback is still to run. */
  lemma JobReleased(s: State, t: State, job: Job)
    requires CallbacksOnce(s)
    requires job.id in s.stages && !s.stages[job.id].Done?
    requires t.stages == s.stages[job.id := Releasing] && t.released == s.released + [job]
    requires t.callbacks == s.callbacks
    ensures CallbacksOnce(t)
  {
    HasIdSnoc(s.released, job);
    hide HasId;
    forall j | j in t.released ensures j.id in t.stages && (t.stages[j.id].Releasing? || j.id in t.callbacks) {
    }
  }

  lemma FinishKeeps(s: State, id: string)
    requires Inv(s) && Enabled(s, Finish(id))
    ensures Inv(Next(s, Finish(id)))
  {
    hide Without, HasId, DistinctIds, DistinctKeys, ServedLater, HandlesMatch, InOrder, TrailingEdge, NoLostWakeup,
      CallbacksOnce;
    var t := Next(s, Finish(id));
    assert IsActive(s, id) by {
      RunningIsActive(s, id);
    }
    NotifyWakes(s, t, id);
    KeptCallbacks(s, t, id);
    LeaveHandles(s, t, id, Done);
    LeaveOrderAndServes(s, t);
  }

  lemma RunningIsActive(s: State, id: string)
    requires HandlesMatch(s) && id in s.stages && s.stages[id].Running?
    ensures IsActive(s, id)
  {
  }

  lemma DropRunningKeeps(s: State, id: string)
    requires Inv(s) && Enabled(s, DropRunning(id))
    ensures Inv(Next(s, DropRunning(id)))
  {
    hide Without, HasId, DistinctIds, DistinctKeys, ServedLater, HandlesMatch, InOrder, TrailingEdge, CallbacksOnce,
      NoLostWakeup;
    var t := Next(s, DropRunning(id));
    assert IsActive(s, id) by {
      RunningIsActive(s, id);
    }
    NotifyWakes(s, t, id);
    LeaveHandles(s, t, id, Releasing);
    LeaveOrderAndServes(s, t);
    JobReleased(s, t, s.active.value);
  }

  // ------------------------------------------------------------------

  lemma DropHandles(s: State, t: State, id: string)
    requires HandlesMatch(s) && id in s.stages && Waiting(s.stages[id])
    requires t.active == s.active && t.queued == Retain(s.queued, id) && t.enqueued == s.enqueued
    requires t.stages == s.stages[id := Releasing]
    ensures HandlesMatch(t)
  {
    HasIdRetain(s.queued, id);
    hide HasId;
  }

  lemma DropOrder(s: State, t: State, id: string)
    requires InOrder(s) && !HasId(s.started, id) && HasId(s.enqueued, id)
    requires t.queued == Retain(s.queued, id) && t.started == s.started
    requires t.enqueued == s.enqueued && t.dropped == s.dropped + {id}
    ensures InOrder(t)
  {
    WithoutMore(s.enqueued, s.dropped, id);
    RetainConcat(s.started, s.queued, id);
    RetainMembers(s.started, id);
    hide HasId, Without, Retain;
  }

  lemma DropServes(s: State, t: State, id: string)
    requires TrailingEdge(s)
    requires t.queued == Retain(s.queued, id) && t.started == s.started
    requires t.requests == s.requests && t.dropped == s.dropped + {id}
    ensures TrailingEdge(t)
  {
    RetainMembers(s.queued, id);
    hide Retain;
    forall i | 0 <= i < |t.requests| ensures ServedLater(t, t.requests[i]) {
      assert ServedLater(s, s.requests[i]);
    }
  }

  lemma DropConserved(s: State, t: State, id: string)
    requires Conserved(s) && DistinctIds(s.queued) && HasId(s.queued, id)
    requires t.queued == Retain(s.queued, id) && t.released == s.released + [JobOf(s.queued, id)]
    requires t.active == s.active && t.enqueued == s.enqueued && t.finished == s.finished
    ensures Conserved(t)
  {
    RetainOne(s.queued, id);
    hide Retain, JobOf;
  }

  lemma DropQueuedKeeps(s: State, id: string)
    requires Inv(s) && Enabled(s, DropQueued(id))
    ensures Inv(Next(s, DropQueued(id)))
  {
    hide Without, HasId, Retain, JobOf, DistinctIds, DistinctKeys, ServedLater, HandlesMatch, InOrder, TrailingEdge,
      CallbacksOnce, Conserved, NoLostWakeup;
    QueueFacts(s);
    WaitingIsQueued(s, id);
    NotStarted(s, id);
    RetainDistinctKeys(s.queued, id);
    var job := JobOf(s.queued, id);
    var t := Next(s, DropQueued(id));
    NotifyWakes(s, t, id);
    DropHandles(s, t, id);
    DropOrder(s, t, id);
    DropServes(s, t, id);
    DropConserved(s, t, id);
    JobReleased(s, t, job);
  }

  lemma NotStarted(s: State, id: string)
    requires HasId(s.queued, id) && forall j :: j in s.queued ==> !HasId(s.started, j.id)
    ensures !HasId(s.started, id)
  {
  }

  lemma WaitingIsQueued(s: State, id: string)
    requires HandlesMatch(s) && id in s.stages && Waiting(s.stages[id])
    ensures HasId(s.queued, id) && HasId(s.enqueued, id)
  {
  }

  // ------------------------------------------------------------------

  lemma EnqueueHandles(s: State, t: State, job: Job)
    requires HandlesMatch(s) && !HasId(s.enqueued, job.id)
    requires forall j :: s.active == Some(j) ==> HasId(s.enqueued, j.id)
    requires t.active == s.active && t.queued == s.queued + [job] && t.enqueued == s.enqueued + [job]
    requires t.stages == s.stages[job.id := Held]
    ensures HandlesMatch(t)
  {
    HasIdSnoc(s.queued, job);
    HasIdSnoc(s.enqueued, job);
    hide HasId;
  }

  lemma EnqueueOrder(s: State, t: State, job: Job)
    requires InOrder(s) && !HasId(s.enqueued, job.id)
    requires t.queued == s.queued + [job] && t.started == s.started
    requires t.enqueued == s.enqueued + [job] && t.dropped == s.dropped
    ensures InOrder(t)
  {
    WithoutSnoc(s.enqueued, job, s.dropped);
    HasIdSnoc(s.enqueued, job);
    hide HasId, Without;
    assert t.started + t.queued == (s.started + s.queued) + [job];
  }

  lemma EnqueueServes(s: State, t: State, job: Job)
    requires TrailingEdge(s) && job in t.queued && forall j :: j in s.queued ==> j in t.queued
    requires t.started == s.started && t.dropped == s.dropped
    requires t.requests == s.requests + [Request(job, |s.started|)]
    ensures TrailingEdge(t)
  {
    forall i | 0 <= i < |t.requests| ensures ServedLater(t, t.requests[i]) {
      if i < |s.requests| {
        assert t.requests[i] == s.requests[i] && ServedLater(s, s.requests[i]);
      }
    }
  }

  lemma EnqueueConserved(s: State, t: State, job: Job)
    requires Conserved(s)
    requires t.queued == s.queued + [job] && t.enqueued == s.enqueued + [job]
    requires t.active == s.active && t.finished == s.finished && t.released == s.released
    ensures Conserved(t)
  {
  }

  lemma EnqueueCallbacks(s: State, t: State, id: string)
    requires CallbacksOnce(s) && id !in s.stages
    requires t.stages == s.stages[id := Held] && t.released == s.released && t.callbacks == s.callbacks
    ensures CallbacksOnce(t)
  {
    hide HasId;
  }

  lemma EnqueueDistinct(s: State, job: Job)
    requires DistinctIds(s.enqueued) && !HasId(s.enqueued, job.id)
    requires DistinctKeys(s.queued) && forall j :: j in s.queued ==> j.key != job.key
    ensures DistinctIds(s.enqueued + [job]) && DistinctKeys(s.queued + [job])
  {
  }

  lemma ActiveEnqueued(s: State)
    requires HandlesMatch(s) && Conserved(s)
    ensures forall j :: s.active == Some(j) ==> HasId(s.enqueued, j.id)
  {
    if s.active.Some? {
      var j := s.active.value;
      assert j in multiset(ActiveJobs(s));
      assert j in multiset(s.enqueued);
      HasIdMember(s.enqueued, j.id);
    }
  }

  lemma EnqueueKeeps(s: State, step: Step)
    requires Inv(s) && step.Enqueue? && Enabled(s, step)
    ensures Inv(Next(s, step))
  {
    hide Without, HasId, DistinctIds, DistinctKeys, ServedLater, HandlesMatch, InOrder, TrailingEdge, CallbacksOnce,
      MatchingJob, NoLostWakeup, Conserved;
    var t := Next(s, step);
    var found := MatchingJob(s.queued, step.key);
    ActiveEnqueued(s);
    if found.Some? {
      EnqueueServes(s, t, found.value);
      SameHandles(s, t);
      SameConserved(s, t);
    } else if (step.mutating && !s.locked && !step.lockFree) || step.created.None? {
      SameHandles(s, t);
      SameConserved(s, t);
      LeaveOrderAndServes(s, t);
    } else {
      var job := Job(step.key, step.scope, step.created.value);
      EnqueueHandles(s, t, job);
      EnqueueOrder(s, t, job);
      EnqueueServes(s, t, job);
      FreshHasNoStage(s, job.id);
      EnqueueCallbacks(s, t, job.id);
      EnqueueDistinct(s, job);
      EnqueueConserved(s, t, job);
      NotifyWakes(s, t, job.id);
    }
  }

  lemma FreshHasNoStage(s: State, id: string)
    requires HandlesMatch(s) && !HasId(s.enqueued, id)
    ensures id !in s.stages
  {
  }

  lemma SameHandles(s: State, t: State)
    requires HandlesMatch(s) && InOrder(s) && CallbacksOnce(s)
    requires t.active == s.active && t.queued == s.queued && t.enqueued == s.enqueued && t.stages == s.stages
    requires t.started == s.started && t.dropped == s.dropped && t.released == s.released && t.callbacks == s.callbacks
    requires NoLostWakeup(s) && t.generation == s.generation
    ensures HandlesMatch(t) && InOrder(t) && CallbacksOnce(t) && NoLostWakeup(t)
  {
    hide HasId, Without;
  }

  // ------------------------------------------------------------------
  // Runs
  // ------------------------------------------------------------------

  lemma StepKeeps(s: State, step: Step)
    requires Inv(s) && Enabled(s, step)
    ensures Inv(Next(s, step))
  {
    hide Inv;
    match step
    case Enqueue(_, _, _, _, _) => EnqueueKeeps(s, step);
    case Arm(id) => StageStep(s, id, Armed(s.generation));
    case Look(id) => LookKeeps(s, id);
    case Wake(id) => StageStep(s, id, Held);
    case Finish(id) => FinishKeeps(s, id);
    case DropQueued(id) => DropQueuedKeeps(s, id);
    case DropRunning(id) => DropRunningKeeps(s, id);
    case Callback(id) => CallbackKeeps(s, id);
  }

  /** Every state of every run keeps the whole invariant. */
  lemma {:induction false} RunKeeps(s: State, steps: seq<Step>)
    requires Inv(s) && IsRun(s, steps)
    ensures Inv(After(s, steps))
    decreases |steps|
  {
    hide Inv, Next, Enabled;
    if steps != [] {
      StepKeeps(s, steps[0]);
      RunKeeps(Next(s, steps[0]), steps[1..]);
    }
  }

  lemma InitialInv()
    ensures Inv(INITIAL)
  {
  }

  // ------------------------------------------------------------------
  // What the invariant means for a run
  // ------------------------------------------------------------------

  /** In every reachable state: one running handle at most and it is the active job's,
      waiting handles correspond to queue entries, keys are distinct, a held lock means
      work, no wake-up is lost, jobs start in order, and none is lost. */
  lemma QueueInvariant(steps: seq<Step>)
    requires IsRun(INITIAL, steps)
    ensures Inv(After(INITIAL, steps))
  {
    InitialInv();
    RunKeeps(INITIAL, steps);
  }

  /** The job an enqueue is answered with: a queued one with the same key, or a new one. */
  function Answer(s: State, step: Step): Option<Job>
    requires step.Enqueue?
  {
    match MatchingJob(s.queued, step.key)
    case Some(job) => Some(job)
    case None =>
      if (step.mutating && !s.locked && !step.lockFree) || step.created.None? then None
      else Some(Job(step.key, step.scope, step.created.value))
  }

  lemma {:induction false} RequestsKept(s: State, steps: seq<Step>)
    requires IsRun(s, steps)
    ensures s.requests <= After(s, steps).requests
    decreases |steps|
  {
    if steps != [] {
      var t := Next(s, steps[0]);
      assert s.requests <= t.requests;
      RequestsKept(t, steps[1..]);
    }
  }

  /** Trailing edge, over all runs: a request answered with a job is answered with one that
      is not running at that moment. Whatever happens later, that job is still queued, was
      abandoned in the queue, or has been started since the request. */
  lemma TrailingEdgeGuarantee(earlier: seq<Step>, request: Step, later: seq<Step>)
    requires IsRun(INITIAL, earlier) && request.Enqueue? && Enabled(After(INITIAL, earlier), request)
    requires IsRun(Next(After(INITIAL, earlier), request), later)
    requires Answer(After(INITIAL, earlier), request).Some?
    ensures var s := After(INITIAL, earlier);
      var job := Answer(s, request).value;
      var u := After(Next(s, request), later);
      && job.key == request.key
      && !IsActive(s, job.id) && !HasId(s.started, job.id)
      && (|| job in u.queued
          || job.id in u.dropped
          || exists i :: |s.started| <= i < |u.started| && u.started[i] == job)
  {
    var s := After(INITIAL, earlier);
    var t := Next(s, request);
    QueueInvariant(earlier);
    StepKeeps(s, request);
    RunKeeps(t, later);
    RequestsKept(t, later);
    AnswerQueued(s, request);
    var u := After(t, later);
    var r := t.requests[|t.requests| - 1];
    assert r == u.requests[|t.requests| - 1] && ServedLater(u, r);
  }

  lemma AnswerQueued(s: State, request: Step)
    requires Inv(s) && request.Enqueue? && Enabled(s, request) && Answer(s, request).Some?
    ensures var job, t := Answer(s, request).value, Next(s, request);
      && job in t.queued && job.key == request.key
      && t.requests == s.requests + [Request(job, |s.started|)]
      && !IsActive(s, job.id) && !HasId(s.started, job.id)
  {
    var job, t := Answer(s, request).value, Next(s, request);
    StepKeeps(s, request);
    hide Inv, Next, LockMatches, NoLostWakeup, Conserved, CallbacksOnce, TrailingEdge, Without;
    AnswerAppends(s, request);
    AnswerNotActive(s, t, job);
    AnswerNotStarted(s, t, job);
  }

  lemma AnswerAppends(s: State, request: Step)
    requires request.Enqueue? && Enabled(s, request) && Answer(s, request).Some?
    ensures var job, t := Answer(s, request).value, Next(s, request);
      && job in t.queued && job.key == request.key && t.started == s.started && t.active == s.active
      && t.requests == s.requests + [Request(job, |s.started|)]
  {
  }

  lemma AnswerNotActive(s: State, t: State, job: Job)
    requires Inv(t) && job in t.queued && t.active == s.active
    ensures !IsActive(s, job.id)
  {
    QueueFacts(t);
    HasIdMember(t.queued, job.id);
    HasIdMember(t.enqueued, job.id);
    hide HasId, Without, LockMatches, NoLostWakeup, Conserved, CallbacksOnce, TrailingEdge, DistinctIds, DistinctKeys;
  }

  lemma AnswerNotStarted(s: State, t: State, job: Job)
    requires Inv(t) && job in t.queued && t.started == s.started
    ensures !HasId(s.started, job.id)
  {
    hide HasId, Without, LockMatches, NoLostWakeup, Conserved, CallbacksOnce, TrailingEdge, DistinctIds, DistinctKeys;
    QueueFacts(t);
  }

  // ------------------------------------------------------------------

  function Position(jobs: seq<Job>, id: string): nat
    requires HasId(jobs, id)
  {
    if jobs[0].id == id then 0 else 1 + Position(jobs[1..], id)
  }

  lemma {:induction false} PositionRetain(jobs: seq<Job>, id: string, other: string)
    requires HasId(jobs, id) && HasId(Retain(jobs, other), id)
    ensures Position(Retain(jobs, other), id) <= Position(jobs, id)
  {
    HasIdRetain(jobs, other);
    if jobs[0].id != id {
      HasIdRetain(jobs[1..], other);
      PositionRetain(jobs[1..], id, other);
    }
  }

  lemma {:induction false} PositionAppend(jobs: seq<Job>, id: string, job: Job)
    requires HasId(jobs, id) && HasId(jobs + [job], id)
    ensures Position(jobs + [job], id) == Position(jobs, id)
  {
    assert (jobs + [job])[0] == jobs[0];
    if jobs[0].id != id {
      assert (jobs + [job])[1..] == jobs[1..] + [job];
      HasIdSnoc(jobs[1..], job);
      PositionAppend(jobs[1..], id, job);
    }
  }

  /** No overtaking: no step moves a waiting job back. */
  lemma PositionNeverGrows(s: State, step: Step, id: string)
    requires Inv(s) && Enabled(s, step)
    requires HasId(s.queued, id) && HasId(Next(s, step).queued, id)
    ensures Position(Next(s, step).queued, id) <= Position(s.queued, id)
  {
    hide Without, LockMatches, NoLostWakeup, Conserved, CallbacksOnce, TrailingEdge, DistinctKeys, HandlesMatch;
    var t := Next(s, step);
    if t.queued != s.queued {
      if step.DropQueued? {
        PositionRetain(s.queued, id, step.id);
      } else if step.Enqueue? {
        PositionAppend(s.queued, id, t.queued[|s.queued|]);
      } else {
        QueueFacts(s);
        HasIdTail(s.queued);
        assert t.queued == s.queued[1..];
      }
    }
  }

  // ------------------------------------------------------------------

  function HandleOf(step: Step): Option<string> {
    match step
    case Enqueue(_, _, _, _, _) => None
    case Arm(id) => Some(id)
    case Look(id) => Some(id)
    case Wake(id) => Some(id)
    case Finish(id) => Some(id)
    case DropQueued(id) => Some(id)
    case DropRunning(id) => Some(id)
    case Callback(id) => Some(id)
  }

  /** No lost wake-up: whenever nothing is active and a job is queued, the handle of the
      first job can start it by its own steps alone, whatever it is doing. */
  lemma HeadCanStart(s: State) returns (steps: seq<Step>)
    requires Inv(s) && s.active.None? && s.queued != []
    ensures 1 <= |steps| <= 3
    ensures forall i :: 0 <= i < |steps| ==> HandleOf(steps[i]) == Some(s.queued[0].id)
    ensures IsRun(s, steps) && After(s, steps).started == s.started + [s.queued[0]]
  {
    var id := s.queued[0].id;
    HeadIsWaiting(s);
    hide Without, LockMatches, Conserved, CallbacksOnce, TrailingEdge, DistinctKeys, HandlesMatch, DistinctIds, HasId;
    if s.stages[id].Armed? {
      steps := [Look(id)];
      RunOne(s, Look(id), []);
    } else if s.stages[id].Held? {
      steps := [Arm(id), Look(id)];
      RunOne(s, Arm(id), [Look(id)]);
      RunOne(Next(s, Arm(id)), Look(id), []);
    } else {
      steps := [Wake(id), Arm(id), Look(id)];
      var t := Next(s, Wake(id));
      RunOne(s, Wake(id), [Arm(id), Look(id)]);
      RunOne(t, Arm(id), [Look(id)]);
      RunOne(Next(t, Arm(id)), Look(id), []);
    }
  }

  lemma HeadIsWaiting(s: State)
    requires Inv(s) && s.queued != []
    ensures s.queued[0].id in s.stages && Waiting(s.stages[s.queued[0].id])
  {
    QueueFacts(s);
    HasIdMember(s.enqueued, s.queued[0].id);
    HasIdMember(s.queued, s.queued[0].id);
    assert s.queued[0] in s.queued;
    hide HasId, Without, LockMatches, NoLostWakeup, Conserved, CallbacksOnce, TrailingEdge, DistinctIds, DistinctKeys;
  }

  lemma RunOne(s: State, step: Step, rest: seq<Step>)
    requires Enabled(s, step)
    ensures IsRun(s, [step] + rest) <==> IsRun(Next(s, step), rest)
    ensures IsRun(Next(s, step), rest) ==> After(s, [step] + rest) == After(Next(s, step), rest)
  {
    hide Next, Enabled;
    assert ([step] + rest)[1..] == rest;
  }

  // ------------------------------------------------------------------

  lemma {:induction false} DistinctOnce(jobs: seq<Job>, j: Job)
    requires DistinctIds(jobs)
    ensures multiset(jobs)[j] <= 1
  {
    if jobs != [] {
      assert jobs == [jobs[0]] + jobs[1..];
      DistinctOnce(jobs[1..], j);
      assert forall i :: 0 <= i < |jobs| - 1 ==> jobs[1..][i] == jobs[i + 1];
      assert jobs[0] !in jobs[1..];
    }
  }

  /** A job ends at most once: never both finished and abandoned, nor either twice; and no
      abandon callback has run for a finished job. */
  lemma EndsOnce(s: State, j: Job)
    requires Inv(s)
    ensures multiset(s.finished)[j] + multiset(s.released)[j] + multiset(s.queued)[j] + multiset(ActiveJobs(s))[j] <= 1
    ensures j in s.finished ==> j.id !in s.callbacks
  {
    DistinctOnce(s.enqueued, j);
    HasIdMember(s.released, j.id);
    forall k ensures j in s.finished && k in s.released ==> j.id != k.id {
      FinishedNotReleased(s, j, k);
    }
    hide Without, LockMatches, NoLostWakeup, TrailingEdge, DistinctKeys, HandlesMatch, InOrder, HasId;
  }

  lemma SameIdSameJob(jobs: seq<Job>, j: Job, k: Job)
    requires DistinctIds(jobs)
    ensures j in jobs && k in jobs && j.id == k.id ==> j == k
  {
    if j in jobs && k in jobs {
      var a :| 0 <= a < |jobs| && jobs[a] == j;
      var b :| 0 <= b < |jobs| && jobs[b] == k;
    }
  }

  lemma FinishedNotReleased(s: State, j: Job, k: Job)
    requires DistinctIds(s.enqueued) && Conserved(s)
    ensures j in s.finished && k in s.released ==> j.id != k.id
  {
    SameIdSameJob(s.enqueued, j, k);
    DistinctOnce(s.enqueued, j);
    hide DistinctIds;
    assert j in s.finished ==> multiset(s.finished)[j] >= 1 && j in multiset(s.enqueued);
    assert k in s.released ==> multiset(s.released)[k] >= 1 && k in multiset(s.enqueued);
  }

  /** At rest, with every handle gone, the queue is empty and unlocked, every job was either
      finished or abandoned, the abandon callback ran for exactly the abandoned ones, and
      every request was served by a start after it or by its job's abandon callback. */
  lemma AtRest(s: State)
    requires Inv(s) && forall id :: id in s.stages ==> s.stages[id].Done?
    ensures Idle(s) && !s.locked
    ensures multiset(s.enqueued) == multiset(s.finished) + multiset(s.released)
    ensures forall id :: id in s.callbacks <==> HasId(s.released, id)
    ensures forall i :: 0 <= i < |s.requests| ==>
      || s.requests[i].job.id in s.dropped
      || exists k :: s.requests[i].startedBefore <= k < |s.started| && s.started[k] == s.requests[i].job
  {
    if s.queued != [] {
      HeadIsWaiting(s);
    }
    ActiveEnqueued(s);
    forall id ensures id in s.callbacks <==> HasId(s.released, id) {
      HasIdMember(s.released, id);
    }
    hide Without, NoLostWakeup, DistinctKeys, DistinctIds, InOrder, HasId;
  }
}
