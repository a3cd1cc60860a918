/** The reconciliation debouncer: requests collect in a set, one worker at a time sleeps and
    then takes the set, and delivers its scopes while later requests collect anew. */
module Debounce {
  import opened Ordered
  import opened Scope

  // ------------------------------------------------------------------
  // The order scopes are delivered in
  // ------------------------------------------------------------------

  /** The order of the scope enumeration: by kind, then by component. */
  predicate ScopeBelow(a: Scope, b: Scope) {
    match (a, b)
    case (System, _) => b != System
    case (Project(p), Project(q)) => Below(p, q)
    case (Project(_), Resource(_, _)) => true
    case (Resource(n, t), Resource(m, u)) => Below(n, m) || (n == m && Below(t, u))
    case _ => false
  }

  lemma ScopeTrichotomy(a: Scope, b: Scope)
    ensures a == b || ScopeBelow(a, b) || ScopeBelow(b, a)
    ensures !(ScopeBelow(a, b) && ScopeBelow(b, a))
  {
    match (a, b)
    case (Project(p), Project(q)) =>
      BelowTrichotomy(p, q);
    case (Resource(n, t), Resource(m, u)) =>
      BelowTrichotomy(n, m);
      BelowTrichotomy(t, u);
    case _ =>
  }

  /** The system first, then projects by id, then resources by name and track. */
  lemma KindsInOrder(p: string, q: string, n: string, t: string, m: string, u: string)
    ensures ScopeBelow(System, Project(p)) && ScopeBelow(System, Resource(n, t))
    ensures ScopeBelow(Project(p), Resource(n, t))
    ensures ScopeBelow(Project(p), Project(q)) <==> Below(p, q)
    ensures ScopeBelow(Resource(n, t), Resource(m, u)) <==> Below(n, m) || (n == m && Below(t, u))
  {
  }

  lemma ScopeTransitive(a: Scope, b: Scope, c: Scope)
    requires ScopeBelow(a, b) && ScopeBelow(b, c)
    ensures ScopeBelow(a, c)
  {
    match (a, b, c)
    case (Project(p), Project(q), Project(r)) =>
      BelowTransitive(p, q, r);
    case (Resource(n, t), Resource(m, u), Resource(o, v)) =>
      if Below(n, m) && Below(m, o) {
        BelowTransitive(n, m, o);
      } else if n == m == o {
        BelowTransitive(t, u, v);
      }
    case _ =>
  }

  predicate First(scope: Scope, scopes: set<Scope>) {
    scope in scopes && forall other :: other in scopes && other != scope ==> ScopeBelow(scope, other)
  }

  lemma {:induction false} FirstExists(scopes: set<Scope>) returns (first: Scope)
    requires scopes != {}
    ensures First(first, scopes)
  {
    first :| first in scopes;
    if scopes != {first} {
      var least := FirstExists(scopes - {first});
      ScopeTrichotomy(least, first);
      forall other | other in scopes && other != first && ScopeBelow(first, least) ensures ScopeBelow(first, other) {
        if other != least {
          ScopeTransitive(first, least, other);
        }
      }
      first := if ScopeBelow(least, first) then least else first;
    }
  }

  lemma FirstMember(scope: Scope, scopes: set<Scope>)
    requires First(scope, scopes)
    ensures scope in scopes && |scopes - {scope}| + 1 == |scopes|
  {
  }

  // ------------------------------------------------------------------
  // Steps
  // ------------------------------------------------------------------

  /** A worker between its decision to spawn and its sleep, asleep, or handing scopes over. */
  datatype Worker = Spawning | Sleeping | Delivering(flush: nat, remaining: set<Scope>)

  /** A request, and how many flushes there had been when it was made. */
  datatype Asked = Asked(scope: Scope, flushes: nat)

  datatype Delivery = Delivery(flush: nat, scope: Scope)

  datatype State = State(
    pending: set<Scope>,
    running: bool,
    workers: seq<Worker>,
    asked: seq<Asked>,
    flushes: seq<set<Scope>>,
    delivered: seq<Delivery>)

  const INITIAL := State({}, false, [], [], [], [])

  datatype Step =
    | Request(scope: Scope)
    | Spawn(worker: nat)
    | Flush(worker: nat)
    | Deliver(worker: nat, scope: Scope)

  predicate Enabled(s: State, step: Step) {
    match step
    case Request(_) => true
    case Spawn(w) => w < |s.workers| && s.workers[w].Spawning?
    case Flush(w) => w < |s.workers| && s.workers[w].Sleeping?
    case Deliver(w, scope) => w < |s.workers| && s.workers[w].Delivering? && First(scope, s.workers[w].remaining)
  }

  function Next(s: State, step: Step): State
    requires Enabled(s, step)
  {
    match step
    case Request(scope) =>
      s.(pending := s.pending + {scope}, running := true,
         workers := if s.running then s.workers else s.workers + [Spawning],
         asked := s.asked + [Asked(scope, |s.flushes|)])
    case Spawn(w) => s.(workers := s.workers[w := Sleeping])
    case Flush(w) =>
      s.(pending := {}, running := false, workers := s.workers[w := Delivering(|s.flushes|, s.pending)],
         flushes := s.flushes + [s.pending])
    case Deliver(w, scope) =>
      var worker := s.workers[w];
      s.(workers := s.workers[w := Delivering(worker.flush, worker.remaining - {scope})],
         delivered := s.delivered + [Delivery(worker.flush, scope)])
  }

  predicate IsRun(s: State, steps: seq<Step>)
    decreases |steps|
  {
    steps == [] || (Enabled(s, steps[0]) && IsRun(Next(s, steps[0]), steps[1..]))
  }

  function After(s: State, steps: seq<Step>): State
    requires IsRun(s, steps)
    decreases |steps|
  {
    if steps == [] then s else After(Next(s, steps[0]), steps[1..])
  }

  // ------------------------------------------------------------------
  // The invariant
  // ------------------------------------------------------------------

  /** Each flush has its worker, and there is one more, not yet awake, exactly while the
      running flag is up; nothing is pending without it. */
  ghost predicate OneWaiting(s: State) {
    && |s.workers| == |s.flushes| + (if s.running then 1 else 0)
    && (forall w :: 0 <= w < |s.flushes| ==> s.workers[w].Delivering? && s.workers[w].flush == w)
    && (s.running ==> !s.workers[|s.flushes|].Delivering?)
    && (s.pending != {} ==> s.running)
  }

  ghost predicate WasAsked(s: State, scope: Scope, flush: nat) {
    Asked(scope, flush) in s.asked
  }

  /** Flushes and the pending set hold what was asked for since the flush before, exactly. */
  ghost predicate FlushesAsked(s: State) {
    && (forall a :: a in s.asked ==> a.flushes <= |s.flushes|)
    && (forall scope :: scope in s.pending <==> WasAsked(s, scope, |s.flushes|))
    && (forall f: nat, scope :: f < |s.flushes| ==> (scope in s.flushes[f] <==> WasAsked(s, scope, f)))
  }

  /** The scopes a flush has yet to hand over. */
  function Remaining(s: State, flush: nat): set<Scope> {
    if flush < |s.workers| && s.workers[flush].Delivering? then s.workers[flush].remaining else {}
  }

  /** A flush's scopes are those its worker still holds and those it has delivered. */
  ghost predicate DeliversFlush(s: State) {
    && (forall f: nat :: f < |s.flushes| ==> Remaining(s, f) <= s.flushes[f])
    && (forall d :: d in s.delivered <==>
      d.flush < |s.flushes| && d.scope in s.flushes[d.flush] - Remaining(s, d.flush))
  }

  /** Nothing is delivered twice by a flush, and its scopes come in ascending order. */
  ghost predicate Ascending(s: State) {
    && (forall i, j :: 0 <= i < j < |s.delivered| && s.delivered[i].flush == s.delivered[j].flush ==>
      ScopeBelow(s.delivered[i].scope, s.delivered[j].scope))
    && (forall d, scope :: d in s.delivered && scope in Remaining(s, d.flush) ==> ScopeBelow(d.scope, scope))
  }

  ghost predicate Inv(s: State) {
    OneWaiting(s) && FlushesAsked(s) && DeliversFlush(s) && Ascending(s)
  }

  lemma RequestKeeps(s: State, scope: Scope)
    requires Inv(s)
    ensures Inv(Next(s, Request(scope)))
  {
    hide First, ScopeBelow;
    var t := Next(s, Request(scope));
    assert FlushesAsked(t) by {
      hide DeliversFlush, Ascending;
      forall x, f: nat ensures WasAsked(t, x, f) <==> WasAsked(s, x, f) || (x == scope && f == |s.flushes|) {
        assert t.asked[|s.asked|] == Asked(scope, |s.flushes|);
      }
    }
  }

  lemma FlushKeeps(s: State, w: nat)
    requires Inv(s) && Enabled(s, Flush(w))
    ensures Inv(Next(s, Flush(w)))
  {
    hide First, ScopeBelow;
    var t := Next(s, Flush(w));
    assert OneWaiting(t) && w == |s.flushes| by {
      hide FlushesAsked, DeliversFlush, Ascending;
    }
    assert FlushesAsked(t) by {
      hide DeliversFlush, Ascending;
      assert forall x, f: nat :: WasAsked(t, x, f) == WasAsked(s, x, f);
    }
  }

  lemma DeliverKeeps(s: State, w: nat, scope: Scope)
    requires Inv(s) && Enabled(s, Deliver(w, scope))
    ensures Inv(Next(s, Deliver(w, scope)))
  {
    hide ScopeBelow;
    var t := Next(s, Deliver(w, scope));
    var d := Delivery(w, scope);
    assert t.delivered == s.delivered + [d];
    assert FlushesAsked(t) by {
      hide DeliversFlush, Ascending;
      assert forall x, f: nat :: WasAsked(t, x, f) == WasAsked(s, x, f);
    }
    assert DeliversFlush(t) by {
      hide FlushesAsked, Ascending;
      forall e ensures e in t.delivered <==> e in s.delivered || e == d {
        assert t.delivered[|s.delivered|] == d;
      }
    }
    assert Ascending(t) by {
      hide FlushesAsked;
      forall e | e in t.delivered ensures e in s.delivered || e == d {}
    }
  }

  /** Every step keeps the invariant. */
  lemma StepKeeps(s: State, step: Step)
    requires Inv(s) && Enabled(s, step)
    ensures Inv(Next(s, step))
  {
    match step
    case Request(scope) =>
      RequestKeeps(s, scope);
    case Spawn(w) =>
      hide First, ScopeBelow;
      assert forall x, f: nat :: WasAsked(Next(s, step), x, f) == WasAsked(s, x, f);
    case Flush(w) =>
      FlushKeeps(s, w);
    case Deliver(w, scope) =>
      DeliverKeeps(s, w, scope);
  }

  lemma {:induction false} RunKeeps(s: State, steps: seq<Step>)
    requires Inv(s) && IsRun(s, steps)
    ensures Inv(After(s, steps))
    ensures s.asked <= After(s, steps).asked && s.delivered <= After(s, steps).delivered
    ensures s.flushes <= After(s, steps).flushes
    decreases |steps|
  {
    hide Inv, First;
    if steps != [] {
      StepKeeps(s, steps[0]);
      RunKeeps(Next(s, steps[0]), steps[1..]);
    }
  }

  lemma InitialInv()
    ensures Inv(INITIAL)
  {
  }

  // ------------------------------------------------------------------
  // What it is for
  // ------------------------------------------------------------------

  /** Nothing is asleep and nothing is left to hand over. */
  predicate AtRest(s: State) {
    forall w :: 0 <= w < |s.workers| ==> s.workers[w].Delivering? && s.workers[w].remaining == {}
  }

  /** How many flushes a run holds. */
  function Flushes(steps: seq<Step>): nat {
    if steps == [] then 0 else Flushes(steps[1..]) + if steps[0].Flush? then 1 else 0
  }

  /** Step i asks for a scope, and the run holds exactly so many flushes before it. */
  predicate Asks(steps: seq<Step>, i: nat, scope: Scope, flush: nat) {
    i < |steps| && steps[i] == Request(scope) && Flushes(steps[..i]) == flush
  }

  ghost predicate AsksAfter(steps: seq<Step>, scope: Scope, flush: int) {
    flush >= 0 && exists i :: Asks(steps, i, scope, flush)
  }

  lemma {:induction false} FlushCount(s: State, steps: seq<Step>)
    requires IsRun(s, steps)
    ensures |After(s, steps).flushes| == |s.flushes| + Flushes(steps)
    decreases |steps|
  {
    hide First;
    if steps != [] {
      FlushCount(Next(s, steps[0]), steps[1..]);
    }
  }

  /** The record of requests is that of the run's own request steps. */
  lemma {:induction false} AskedTold(s: State, steps: seq<Step>, scope: Scope, flush: nat)
    requires IsRun(s, steps)
    ensures WasAsked(After(s, steps), scope, flush) <==>
      || WasAsked(s, scope, flush)
      || AsksAfter(steps, scope, flush - |s.flushes|)
    decreases |steps|
  {
    hide First, AsksAfter;
    if steps == [] {
      AsksNothing(scope, flush - |s.flushes|);
    } else {
      var t := Next(s, steps[0]);
      AskedTold(t, steps[1..], scope, flush);
      assert WasAsked(t, scope, flush) <==>
        WasAsked(s, scope, flush) || (steps[0] == Request(scope) && flush == |s.flushes|) by {
        assert steps[0].Request? ==> t.asked[|s.asked|] == Asked(steps[0].scope, |s.flushes|);
      }
      AsksLater(steps, scope, flush - |s.flushes|);
    }
  }

  /** Whether a run asks for a scope after so many flushes is told by its first step and the
      rest of it. */
  lemma AsksLater(steps: seq<Step>, scope: Scope, flush: int)
    requires steps != []
    ensures AsksAfter(steps, scope, flush) <==>
      || (steps[0] == Request(scope) && flush == 0)
      || AsksAfter(steps[1..], scope, flush - if steps[0].Flush? then 1 else 0)
  {
    var first := if steps[0].Flush? then 1 else 0;
    forall i: nat | 0 < i < |steps| ensures Flushes(steps[..i]) == Flushes(steps[1..][..i - 1]) + first {
      assert steps[..i][1..] == steps[1..][..i - 1];
    }
    if AsksAfter(steps, scope, flush) {
      var i: nat :| Asks(steps, i, scope, flush);
      assert i > 0 ==> Asks(steps[1..], i - 1, scope, flush - first);
    }
    if steps[0] == Request(scope) && flush == 0 {
      assert Asks(steps, 0, scope, flush);
    }
    if AsksAfter(steps[1..], scope, flush - first) {
      var i: nat :| Asks(steps[1..], i, scope, flush - first);
      assert Asks(steps, i + 1, scope, flush);
    }
  }

  lemma AsksNothing(scope: Scope, flush: int)
    ensures !AsksAfter([], scope, flush)
  {
  }

  /** The hand-overs of a run, in order: by which flush, and of which scope. */
  function HandedOver(steps: seq<Step>): seq<Delivery> {
    if steps == [] then []
    else (if steps[0].Deliver? then [Delivery(steps[0].worker, steps[0].scope)] else []) + HandedOver(steps[1..])
  }

  /** The record of deliveries is that of the run's own hand-over steps: the worker's number is
      that of its flush. */
  lemma {:induction false} DeliveredTold(s: State, steps: seq<Step>)
    requires Inv(s) && IsRun(s, steps)
    ensures After(s, steps).delivered == s.delivered + HandedOver(steps)
    decreases |steps|
  {
    hide First, FlushesAsked, DeliversFlush, Ascending;
    if steps != [] {
      StepKeeps(s, steps[0]);
      DeliveredTold(Next(s, steps[0]), steps[1..]);
    }
  }

  /** What is pending after a run is what it asked for since its last flush. */
  lemma PendingTold(steps: seq<Step>, scope: Scope)
    requires IsRun(INITIAL, steps)
    ensures scope in After(INITIAL, steps).pending <==> exists i :: Asks(steps, i, scope, Flushes(steps))
  {
    hide First;
    InitialInv();
    RunKeeps(INITIAL, steps);
    FlushCount(INITIAL, steps);
    AskedTold(INITIAL, steps, scope, Flushes(steps));
  }

  predicate HandedOverOnce(steps: seq<Step>, d: Delivery) {
    exists i :: 0 <= i < |HandedOver(steps)| && HandedOver(steps)[i] == d
      && forall j :: 0 <= j < |HandedOver(steps)| && HandedOver(steps)[j] == d ==> j == i
  }

  /** Told by the steps of a run alone: a flush hands over a scope only if the run asks for it
      with exactly the flushes before that one gone by; and once the debouncer is at rest every
      such request has been handed over by that flush, once. */
  lemma RequestsDelivered(steps: seq<Step>, scope: Scope, flush: nat)
    requires IsRun(INITIAL, steps)
    ensures Deliver(flush, scope) in steps <==> Delivery(flush, scope) in HandedOver(steps)
    ensures Delivery(flush, scope) in HandedOver(steps) ==> exists i :: Asks(steps, i, scope, flush)
    ensures AtRest(After(INITIAL, steps)) ==> forall i :: Asks(steps, i, scope, flush) ==>
      HandedOverOnce(steps, Delivery(flush, scope))
    ensures After(INITIAL, steps).delivered == HandedOver(steps)
  {
    hide First, Inv, AtRest, After, IsRun, HandedOver, Asks, WasAsked, HandedOverOnce;
    InitialInv();
    RunKeeps(INITIAL, steps);
    assert !WasAsked(INITIAL, scope, flush) by {
      NothingAsked(scope, flush);
    }
    AskedTold(INITIAL, steps, scope, flush);
    DeliveredTold(INITIAL, steps);
    HandedOverSteps(steps, scope, flush);
    DeliveredOnce(After(INITIAL, steps), Delivery(flush, scope));
    OnceInSteps(steps, Delivery(flush, scope));
    assert INITIAL.delivered + HandedOver(steps) == HandedOver(steps);
  }

  lemma NothingAsked(scope: Scope, flush: nat)
    ensures !WasAsked(INITIAL, scope, flush)
  {
  }

  lemma OnceInSteps(steps: seq<Step>, d: Delivery)
    ensures
      && d in HandedOver(steps)
      && (forall i, j :: 0 <= i < j < |HandedOver(steps)| ==> HandedOver(steps)[i] != HandedOver(steps)[j]) ==>
        HandedOverOnce(steps, d)
  {
    hide HandedOver;
  }

  /** What an invariant state has delivered was asked for, and at rest the other way round and
      once each. */
  lemma DeliveredOnce(s: State, d: Delivery)
    requires Inv(s)
    ensures d in s.delivered ==> WasAsked(s, d.scope, d.flush)
    ensures AtRest(s) && WasAsked(s, d.scope, d.flush) ==> d in s.delivered
    ensures forall i, j :: 0 <= i < j < |s.delivered| ==> s.delivered[i] != s.delivered[j]
  {
    if AtRest(s) && WasAsked(s, d.scope, d.flush) {
      RestIsFlushed(s, d);
    }
    assert forall i, j :: 0 <= i < j < |s.delivered| ==> s.delivered[i] != s.delivered[j] by {
      hide OneWaiting, FlushesAsked, DeliversFlush, AtRest, First, ScopeBelow;
      forall i, j | 0 <= i < j < |s.delivered| ensures s.delivered[i] != s.delivered[j] {
        ScopeTrichotomy(s.delivered[i].scope, s.delivered[j].scope);
      }
    }
  }

  lemma {:induction false} HandedOverSteps(steps: seq<Step>, scope: Scope, flush: nat)
    ensures Deliver(flush, scope) in steps <==> Delivery(flush, scope) in HandedOver(steps)
  {
    if steps != [] {
      HandedOverSteps(steps[1..], scope, flush);
      assert steps == [steps[0]] + steps[1..];
    }
  }

  /** A request is served by a flush that has not happened when it is made: at rest, its
      hand-over is one that comes after the request. */
  lemma ServedByLaterFlush(earlier: seq<Step>, scope: Scope, later: seq<Step>)
    requires IsRun(INITIAL, earlier)
    requires IsRun(Next(After(INITIAL, earlier), Request(scope)), later)
    requires AtRest(After(Next(After(INITIAL, earlier), Request(scope)), later))
    ensures Deliver(Flushes(earlier), scope) in later
  {
    hide Inv, AtRest, First;
    InitialInv();
    RunKeeps(INITIAL, earlier);
    FlushCount(INITIAL, earlier);
    var s := After(INITIAL, earlier);
    var t := Next(s, Request(scope));
    StepKeeps(s, Request(scope));
    RunKeeps(t, later);
    DeliveredTold(t, later);
    var u := After(t, later);
    var a := Asked(scope, |s.flushes|);
    assert t.asked[|s.asked|] == a;
    assert u.asked[|s.asked|] == a;
    DeliveredLater(s, u, scope);
    HandedOverSteps(later, scope, |s.flushes|);
  }

  lemma DeliveredLater(s: State, u: State, scope: Scope)
    requires Inv(s) && Inv(u) && AtRest(u) && WasAsked(u, scope, |s.flushes|) && s.delivered <= u.delivered
    ensures exists i :: |s.delivered| <= i < |u.delivered| && u.delivered[i] == Delivery(|s.flushes|, scope)
  {
    hide OneWaiting, Ascending, FlushesAsked, WasAsked, AtRest;
    var d := Delivery(|s.flushes|, scope);
    RestIsFlushed(u, d);
    assert d !in s.delivered;
    var i :| 0 <= i < |u.delivered| && u.delivered[i] == d;
    assert s.delivered == u.delivered[..|s.delivered|];
  }

  lemma RestIsFlushed(s: State, d: Delivery)
    requires Inv(s) && AtRest(s) && WasAsked(s, d.scope, d.flush)
    ensures d in s.delivered
  {
    hide Ascending;
    assert d.flush <= |s.flushes|;
  }

  // ------------------------------------------------------------------
  // Progress
  // ------------------------------------------------------------------

  function WorkLeft(workers: seq<Worker>, pending: nat): nat {
    if workers == [] then 0
    else
      WorkLeft(workers[1..], pending) +
      match workers[0]
      case Spawning => 2 + pending
      case Sleeping => 1 + pending
      case Delivering(_, remaining) => |remaining|
  }

  function Work(s: State): nat {
    WorkLeft(s.workers, |s.pending|)
  }

  lemma {:induction false} WorkLeftAt(workers: seq<Worker>, pending: nat, w: nat, worker: Worker)
    requires w < |workers|
    ensures WorkLeft(workers[w := worker], pending) + WorkLeft([workers[w]], pending)
      == WorkLeft(workers, pending) + WorkLeft([worker], pending)
  {
    if w > 0 {
      assert workers[w := worker][1..] == workers[1..][w - 1 := worker];
      WorkLeftAt(workers[1..], pending, w - 1, worker);
    } else {
      assert workers[0 := worker][1..] == workers[1..];
    }
  }

  lemma {:induction false} WorkLeftDelivering(workers: seq<Worker>, p: nat, q: nat)
    requires forall w :: 0 <= w < |workers| ==> workers[w].Delivering?
    ensures WorkLeft(workers, p) == WorkLeft(workers, q)
    ensures WorkLeft(workers, p) == 0 <==> forall w :: 0 <= w < |workers| ==> workers[w].remaining == {}
  {
    if workers != [] {
      WorkLeftDelivering(workers[1..], p, q);
      assert WorkLeft(workers, p) == 0 ==>
        forall w :: 0 <= w < |workers| ==> workers[w] == (if w == 0 then workers[0] else workers[1..][w - 1]);
    }
  }

  /** Without further requests every step of a worker takes one off what is left to do, so
      the debouncer comes to rest after exactly that many steps. */
  lemma WorkerStepWorks(s: State, step: Step)
    requires Inv(s) && Enabled(s, step) && !step.Request?
    ensures Work(Next(s, step)) + 1 == Work(s)
  {
    hide First, FlushesAsked, DeliversFlush, Ascending;
    var t := Next(s, step);
    var w := step.worker;
    WorkLeftAt(s.workers, |s.pending|, w, t.workers[w]);
    if step.Flush? {
      WorkLeftDelivering(t.workers, |s.pending|, 0);
    } else if step.Deliver? {
      FirstMember(step.scope, s.workers[w].remaining);
    }
  }

  /** Whatever is not at rest has a worker that can go on. */
  lemma CanWork(s: State) returns (step: Step)
    requires Inv(s) && !AtRest(s)
    ensures Enabled(s, step) && !step.Request?
  {
    var w :| 0 <= w < |s.workers| && !(s.workers[w].Delivering? && s.workers[w].remaining == {});
    match s.workers[w]
    case Spawning =>
      step := Spawn(w);
    case Sleeping =>
      step := Flush(w);
    case Delivering(_, remaining) =>
      var first := FirstExists(remaining);
      step := Deliver(w, first);
  }

  /** Left alone, the debouncer delivers everything: whichever worker goes next, after
      exactly as many steps as there is work it is at rest, and not before. */
  lemma {:induction false} ComesToRest(s: State, steps: seq<Step>)
    requires Inv(s) && IsRun(s, steps) && forall i :: 0 <= i < |steps| ==> !steps[i].Request?
    ensures |steps| <= Work(s)
    ensures |steps| == Work(s) <==> AtRest(After(s, steps))
    decreases |steps|
  {
    hide First;
    if steps != [] {
      WorkerStepWorks(s, steps[0]);
      StepKeeps(s, steps[0]);
      ComesToRest(Next(s, steps[0]), steps[1..]);
    } else {
      RestIsNoWork(s);
    }
  }

  lemma RestIsNoWork(s: State)
    requires Inv(s)
    ensures AtRest(s) <==> Work(s) == 0
  {
    if !AtRest(s) {
      var step := CanWork(s);
      WorkerStepWorks(s, step);
    } else {
      WorkLeftDelivering(s.workers, |s.pending|, 0);
    }
  }
}
