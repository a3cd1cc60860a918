/** The debouncer object, and the project configuration watcher that drives it. */
module Watcher {
  import opened Text
  import opened Scope
  import opened Debounce

  class ReconciliationDebouncer {
    var pending: set<Scope>
    var workerRunning: bool
    ghost var log: State

    /** The log agrees with the guarded fields and has kept the invariant so far. */
    ghost predicate Valid()
      reads this
    {
      log.pending == pending && log.running == workerRunning && Inv(log)
    }

    constructor ()
      ensures Valid() && log == INITIAL
    {
      pending, workerRunning, log := {}, false, INITIAL;
    }

    /** `shouldSpawn` tells the caller that it has to start the worker. */
    method Request(scope: Scope) returns (shouldSpawn: bool)
      requires Valid()
      modifies this
      ensures Valid() && log == Next(old(log), Step.Request(scope))
      ensures pending == old(pending) + {scope} && workerRunning
      ensures shouldSpawn <==> !old(workerRunning)
      ensures shouldSpawn <==> |log.workers| == |old(log.workers)| + 1
    {
      hide Inv;
      StepKeeps(log, Step.Request(scope));
      log := Next(log, Step.Request(scope));
      pending := pending + {scope};
      shouldSpawn := !workerRunning;
      workerRunning := true;
    }

    /** What a worker does after its sleep: it takes the pending set and hands every scope in
        it to the handler, in order, once. */
    method FlushAfterDelay(ghost worker: nat) returns (handled: seq<Scope>, ghost steps: seq<Step>)
      requires Valid() && Enabled(log, Flush(worker))
      modifies this
      ensures Valid() && pending == {} && !workerRunning
      ensures forall scope :: scope in handled <==> scope in old(pending)
      ensures forall i, j :: 0 <= i < j < |handled| ==> ScopeBelow(handled[i], handled[j])
      ensures IsRun(old(log), steps) && log == After(old(log), steps)
      ensures steps == [Flush(worker)] + seq(|handled|, i requires 0 <= i < |handled| => Deliver(worker, handled[i]))
    {
      hide Inv, First, ScopeBelow;
      StepKeeps(log, Flush(worker));
      ghost var start := log;
      log := Next(log, Flush(worker));
      workerRunning := false;
      var scopes := pending;
      pending := {};
      handled, steps := [], [Flush(worker)];
      while scopes != {}
        invariant Valid() && pending == {} && !workerRunning
        invariant worker < |log.workers| && log.workers[worker].Delivering? && log.workers[worker].remaining == scopes
        invariant forall scope :: scope in handled || scope in scopes <==> scope in old(pending)
        invariant forall i, j :: 0 <= i < j < |handled| ==> ScopeBelow(handled[i], handled[j])
        invariant forall i, scope :: 0 <= i < |handled| && scope in scopes ==> ScopeBelow(handled[i], scope)
        invariant IsRun(start, steps) && log == After(start, steps)
        invariant |steps| == |handled| + 1 && steps[0] == Flush(worker)
        invariant forall i :: 0 <= i < |handled| ==> steps[i + 1] == Deliver(worker, handled[i])
        decreases scopes
      {
        ghost var first := FirstExists(scopes);
        var scope :| First(scope, scopes);
        FirstMember(scope, scopes);
        FirstBelow(scope, scopes);
        StepKeeps(log, Deliver(worker, scope));
        RunSnoc(start, steps, Deliver(worker, scope));
        log := Next(log, Deliver(worker, scope));
        handled, steps := handled + [scope], steps + [Deliver(worker, scope)];
        scopes := scopes - {scope};
      }
    }
  }

  lemma FirstBelow(scope: Scope, scopes: set<Scope>)
    requires First(scope, scopes)
    ensures forall other :: other in scopes - {scope} ==> ScopeBelow(scope, other)
  {
    hide ScopeBelow;
  }

  lemma {:induction false} RunSnoc(s: State, steps: seq<Step>, step: Step)
    requires IsRun(s, steps) && Enabled(After(s, steps), step)
    ensures IsRun(s, steps + [step]) && After(s, steps + [step]) == Next(After(s, steps), step)
    decreases |steps|
  {
    hide Enabled, Next;
    if steps == [] {
      assert steps + [step] == [step];
      assert [step][1..] == [];
    } else {
      assert (steps + [step])[1..] == steps[1..] + [step];
      RunSnoc(Next(s, steps[0]), steps[1..], step);
    }
  }

  // ------------------------------------------------------------------
  // The watcher
  // ------------------------------------------------------------------

  type Timestamp = nat

  datatype WatchedConfig = WatchedConfig(preferred: Option<Timestamp>, alternate: Option<Timestamp>)

  datatype DaemonError = DatabaseError | SnapshotError(path: string)

  /** A project of the watch list with what its snapshot read comes to. */
  datatype Watch = Watch(projectId: string, snapshot: Result<WatchedConfig, DaemonError>)

  /** What the watcher last knew of project i's configuration: from an earlier entry of this
      poll, or else from the poll before. */
  function LastKnown(known: map<string, WatchedConfig>, watches: seq<Watch>, i: nat, id: string): Option<WatchedConfig>
    requires i <= |watches|
  {
    if i > 0 && watches[i - 1].projectId == id && watches[i - 1].snapshot.Ok? then Some(watches[i - 1].snapshot.value)
    else if i > 0 then LastKnown(known, watches, i - 1, id)
    else if id in known then Some(known[id])
    else None
  }

  predicate Changed(known: map<string, WatchedConfig>, watches: seq<Watch>, i: nat)
    requires i < |watches|
  {
    && watches[i].snapshot.Ok?
    && LastKnown(known, watches, i, watches[i].projectId).Some?
    && LastKnown(known, watches, i, watches[i].projectId).value != watches[i].snapshot.value
    && IsComponent(watches[i].projectId)
  }

  /** The scopes the first n entries of a poll ask for, in order. */
  function Changes(known: map<string, WatchedConfig>, watches: seq<Watch>, n: nat): seq<Scope>
    requires n <= |watches|
  {
    if n == 0 then []
    else
      var scope := Project(watches[n - 1].projectId);
      Changes(known, watches, n - 1) + if Changed(known, watches, n - 1) then [scope] else []
  }

  function Requests(scopes: seq<Scope>): seq<Step> {
    seq(|scopes|, i requires 0 <= i < |scopes| => Request(scopes[i]))
  }

  lemma NoRequests(s: State)
    ensures IsRun(s, Requests([])) && After(s, Requests([])) == s
  {
  }

  /** The first entry whose snapshot cannot be read, or the length. */
  function FirstUnread(watches: seq<Watch>): (n: nat)
    ensures n <= |watches|
    ensures forall i :: 0 <= i < n ==> watches[i].snapshot.Ok?
    ensures n < |watches| ==> watches[n].snapshot.Err?
  {
    if watches == [] || watches[0].snapshot.Err? then 0 else 1 + FirstUnread(watches[1..])
  }

  ghost predicate Records(configs: map<string, WatchedConfig>, known: map<string, WatchedConfig>,
                          watches: seq<Watch>, n: nat)
    requires n <= |watches|
  {
    && (forall id :: id in configs <==> LastKnown(known, watches, n, id).Some?)
    && (forall id :: id in configs ==> LastKnown(known, watches, n, id) == Some(configs[id]))
  }

  lemma RecordsStart(known: map<string, WatchedConfig>, watches: seq<Watch>)
    ensures Records(known, known, watches, 0) && Records(map[], map[], watches, 0)
  {
  }

  lemma RecordsStep(configs: map<string, WatchedConfig>, known: map<string, WatchedConfig>, watches: seq<Watch>, n: nat)
    requires n < |watches| && watches[n].snapshot.Ok? && Records(configs, known, watches, n)
    ensures Records(configs[watches[n].projectId := watches[n].snapshot.value], known, watches, n + 1)
    ensures LastKnown(known, watches, n, watches[n].projectId)
      == if watches[n].projectId in configs then Some(configs[watches[n].projectId]) else None
  {
  }

  class ProjectConfigWatcher {
    const debouncer: ReconciliationDebouncer
    var watchedConfigs: map<string, WatchedConfig>

    constructor (debouncer: ReconciliationDebouncer)
      ensures this.debouncer == debouncer && watchedConfigs == map[]
    {
      this.debouncer, watchedConfigs := debouncer, map[];
    }

    /** `watches` is the watch list the database answers with, or its error. */
    method PollOnce(watches: Result<seq<Watch>, DaemonError>)
      returns (result: Result<(), DaemonError>, requested: seq<Scope>)
      requires debouncer.Valid()
      modifies this, debouncer
      ensures debouncer.Valid()
      ensures IsRun(old(debouncer.log), Requests(requested))
      ensures debouncer.log == After(old(debouncer.log), Requests(requested))
      ensures watches.Err? ==> result == Err(watches.error) && requested == [] && watchedConfigs == old(watchedConfigs)
      ensures watches.Ok? ==> requested == Changes(old(watchedConfigs), watches.value, FirstUnread(watches.value))
      ensures watches.Ok? && FirstUnread(watches.value) == |watches.value| ==>
        result == Ok(()) && Records(watchedConfigs, map[], watches.value, |watches.value|)
      ensures watches.Ok? && FirstUnread(watches.value) < |watches.value| ==>
        && result == Err(watches.value[FirstUnread(watches.value)].snapshot.error)
        && Records(watchedConfigs, old(watchedConfigs), watches.value, FirstUnread(watches.value))
    {
      hide Inv, Records, LastKnown, IsRun, After, Next;
      NoRequests(debouncer.log);
      requested := [];
      if watches.Err? {
        return Err(watches.error), requested;
      }
      var list := watches.value;
      var currentConfigs: map<string, WatchedConfig> := map[];
      var i := 0;
      RecordsStart(watchedConfigs, list);
      while i < |list|
        invariant 0 <= i <= FirstUnread(list)
        invariant debouncer.Valid()
        invariant IsRun(old(debouncer.log), Requests(requested))
        invariant debouncer.log == After(old(debouncer.log), Requests(requested))
        invariant requested == Changes(old(watchedConfigs), list, i)
        invariant Records(watchedConfigs, old(watchedConfigs), list, i)
        invariant Records(currentConfigs, map[], list, i)
      {
        var watch := list[i];
        if watch.snapshot.Err? {
          return Err(watch.snapshot.error), requested;
        }
        var watchedConfig := watch.snapshot.value;
        RecordsStep(watchedConfigs, old(watchedConfigs), list, i);
        RecordsStep(currentConfigs, map[], list, i);
        var previous := if watch.projectId in watchedConfigs then Some(watchedConfigs[watch.projectId]) else None;
        watchedConfigs := watchedConfigs[watch.projectId := watchedConfig];
        var scope := NewProject(watch.projectId);
        NewProjectExact(watch.projectId);
        if previous.Some? && previous.value != watchedConfig && scope.Ok? {
          assert Requests(requested + [scope.value]) == Requests(requested) + [Request(scope.value)];
          RunSnoc(old(debouncer.log), Requests(requested), Request(scope.value));
          var _ := debouncer.Request(scope.value);
          requested := requested + [scope.value];
        }
        currentConfigs := currentConfigs[watch.projectId := watchedConfig];
        i := i + 1;
      }
      watchedConfigs := currentConfigs;
      result := Ok(());
    }
  }

  // ------------------------------------------------------------------
  // Two polls
  // ------------------------------------------------------------------

  predicate DistinctProjects(watches: seq<Watch>) {
    forall i, j :: 0 <= i < j < |watches| ==> watches[i].projectId != watches[j].projectId
  }

  predicate Saw(watches: seq<Watch>, id: string, config: WatchedConfig) {
    Watch(id, Ok(config)) in watches
  }

  lemma {:induction false} LastKnownDistinct(known: map<string, WatchedConfig>, watches: seq<Watch>, n: nat, id: string)
    requires n <= |watches| && DistinctProjects(watches)
    ensures forall i :: 0 <= i < n && watches[i].projectId == id && watches[i].snapshot.Ok? ==>
      LastKnown(known, watches, n, id) == Some(watches[i].snapshot.value)
    ensures (forall i :: 0 <= i < n && watches[i].snapshot.Ok? ==> watches[i].projectId != id) ==>
      LastKnown(known, watches, n, id) == if id in known then Some(known[id]) else None
  {
    if n > 0 {
      LastKnownDistinct(known, watches, n - 1, id);
    }
  }

  lemma {:induction false} ChangesMember(known: map<string, WatchedConfig>, watches: seq<Watch>, n: nat, scope: Scope)
    requires n <= |watches|
    ensures scope in Changes(known, watches, n) <==>
      exists i :: 0 <= i < n && Changed(known, watches, i) && scope == Project(watches[i].projectId)
  {
    if n > 0 {
      ChangesMember(known, watches, n - 1, scope);
      hide Changed;
      assert Changed(known, watches, n - 1) && scope == Project(watches[n - 1].projectId) ==>
        exists i :: 0 <= i < n && Changed(known, watches, i) && scope == Project(watches[i].projectId);
    }
  }

  /** After a complete poll the watcher knows exactly what the poll saw. */
  lemma KnownIsSeen(before: seq<Watch>, known: map<string, WatchedConfig>, id: string)
    requires DistinctProjects(before) && FirstUnread(before) == |before| && Records(known, map[], before, |before|)
    ensures forall a :: Saw(before, id, a) <==> id in known && known[id] == a
  {
    LastKnownDistinct(map[], before, |before|, id);
    forall a ensures Saw(before, id, a) <==> id in known && known[id] == a {
      hide LastKnown, Records;
      if Saw(before, id, a) {
        var i :| 0 <= i < |before| && before[i] == Watch(id, Ok(a));
        KnownMeans(before, known, id);
      } else if id in known {
        KnownMeans(before, known, id);
        var i :| 0 <= i < |before| && before[i].projectId == id && before[i].snapshot.Ok?;
        assert before[i] == Watch(id, Ok(before[i].snapshot.value));
      }
    }
  }

  lemma KnownMeans(before: seq<Watch>, known: map<string, WatchedConfig>, id: string)
    requires Records(known, map[], before, |before|)
    ensures id in known <==> LastKnown(map[], before, |before|, id).Some?
    ensures id in known ==> LastKnown(map[], before, |before|, id) == Some(known[id])
  {
    hide LastKnown;
  }

  lemma ChangedMeans(known: map<string, WatchedConfig>, watches: seq<Watch>, i: nat)
    requires i < |watches| && DistinctProjects(watches)
    ensures Changed(known, watches, i) <==>
      && IsComponent(watches[i].projectId) && watches[i].snapshot.Ok?
      && watches[i].projectId in known && known[watches[i].projectId] != watches[i].snapshot.value
  {
    LastKnownDistinct(known, watches, i, watches[i].projectId);
    hide LastKnown;
  }

  /** A poll after a complete one asks for exactly the projects that both polls saw with
      different snapshots, as far as their id can be part of a scope. */
  lemma PollRequestsChangedProjects(before: seq<Watch>, now: seq<Watch>, known: map<string, WatchedConfig>, id: string)
    requires DistinctProjects(before) && DistinctProjects(now)
    requires FirstUnread(before) == |before| && Records(known, map[], before, |before|)
    ensures Project(id) in Changes(known, now, FirstUnread(now)) <==>
      && IsComponent(id)
      && exists a, b :: Saw(before, id, a) && Saw(now[..FirstUnread(now)], id, b) && a != b
  {
    hide Changed, LastKnown, Records, Changes, DistinctProjects, IsComponent;
    var n := FirstUnread(now);
    ChangesMember(known, now, n, Project(id));
    KnownIsSeen(before, known, id);
    if i: nat :| i < n && Changed(known, now, i) && Project(id) == Project(now[i].projectId) {
      ChangedMeans(known, now, i);
      assert now[..n][i] == Watch(id, now[i].snapshot);
      assert Saw(before, id, known[id]) && Saw(now[..n], id, now[i].snapshot.value);
    }
    if a, b :| IsComponent(id) && Saw(before, id, a) && Saw(now[..n], id, b) && a != b {
      var i :| 0 <= i < n && now[..n][i] == Watch(id, Ok(b));
      ChangedMeans(known, now, i);
    }
  }

  /** A project whose id holds a colon is never asked for, however it changed. */
  lemma ColonNeverRequested(was: WatchedConfig, now: WatchedConfig)
    ensures Changes(map["a:b" := was], [Watch("a:b", Ok(now))], 1) == []
  {
    assert "a:b"[1] == ':';
    assert !Changed(map["a:b" := was], [Watch("a:b", Ok(now))], 0);
  }
}
