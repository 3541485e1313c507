/** Dependency-ordered starting: `ServiceManager.start` and the backend pass before a simulation. */
module ServiceStart {
  import opened Options

  /** The services of the registry, and any others a dependency graph may have. */
  datatype Key =
    | Kafka | MongoDb | Api | Analytics | Dataplane | VictoriaMetrics | PerfVmSink | Nginx | Osrm | Rabbit | Celery
    | Simulation | Other(n: nat)

  /** `dependencies` of every service. */
  type Graph = map<Key, seq<Key>>

  type Ranking = map<Key, nat>

  datatype State = Stopped | Starting | Running | Stopping | Failed

  /** How an attempt to start one service ends: ready; failed with nothing running; or failed (say,
      at the readiness test) with the service left running. */
  datatype Outcome = Comes | FailsDown | FailsUp

  datatype ActionResult = ActionResult(key: Key, ok: bool, state: State)

  // ---------------------------------------------------------------- graphs

  /** The graph is acyclic: every dependency is registered and ranks lower. */
  ghost predicate Ranked(g: Graph, rank: Ranking) {
    && g.Keys <= rank.Keys
    && forall k, i :: k in g && 0 <= i < |g[k]| ==> g[k][i] in g && rank[g[k][i]] < rank[k]
  }

  ghost predicate DependenciesUp(g: Graph, k: Key, up: set<Key>) {
    k in g ==> forall i :: 0 <= i < |g[k]| ==> g[k][i] in up
  }

  ghost predicate Closed(g: Graph, up: set<Key>) {
    forall k :: k in up ==> DependenciesUp(g, k, up)
  }

  /** `d` is `k` or one of its transitive dependencies. */
  ghost predicate Needs(g: Graph, rank: Ranking, k: Key, d: Key)
    requires Ranked(g, rank) && k in g
    decreases rank[k]
  {
    k == d || exists i :: 0 <= i < |g[k]| && Needs(g, rank, g[k][i], d)
  }

  lemma {:induction false} ClosedHasAllNeeded(g: Graph, rank: Ranking, up: set<Key>, k: Key, d: Key)
    requires Ranked(g, rank) && k in g && Closed(g, up) && k in up && Needs(g, rank, k, d)
    ensures d in up
    decreases rank[k]
  {
    if k != d {
      var i :| 0 <= i < |g[k]| && Needs(g, rank, g[k][i], d);
      assert DependenciesUp(g, k, up);
      ClosedHasAllNeeded(g, rank, up, g[k][i], d);
    }
  }

  /** What starting services may do to the set of those running: it only grows, and whatever is new
      has its dependencies running. */
  ghost predicate Grows(g: Graph, before: set<Key>, after: set<Key>) {
    before <= after && forall k :: k in after - before ==> DependenciesUp(g, k, after)
  }

  lemma GrowsTrans(g: Graph, a: set<Key>, b: set<Key>, c: set<Key>)
    requires Grows(g, a, b) && Grows(g, b, c)
    ensures Grows(g, a, c)
  {
    forall k | k in c - a
      ensures DependenciesUp(g, k, c)
    {
      if k in b {
        assert DependenciesUp(g, k, b);
      }
    }
  }

  lemma GrowsKeepsClosed(g: Graph, before: set<Key>, after: set<Key>)
    requires Grows(g, before, after) && Closed(g, before)
    ensures Closed(g, after)
  {
    forall k | k in after
      ensures DependenciesUp(g, k, after)
    {
      if k in before {
        assert DependenciesUp(g, k, before);
      }
    }
  }

  /** So if the set was closed before, a successful start leaves everything the service needs running. */
  lemma StartedMeansAllUp(g: Graph, rank: Ranking, before: set<Key>, after: set<Key>, key: Key)
    requires Ranked(g, rank) && key in g && Closed(g, before) && Grows(g, before, after) && key in after
    ensures Closed(g, after) && forall d :: Needs(g, rank, key, d) ==> d in after
  {
    GrowsKeepsClosed(g, before, after);
    forall d | Needs(g, rank, key, d)
      ensures d in after
    {
      ClosedHasAllNeeded(g, rank, after, key, d);
    }
  }

  /** Only `key` and what it needs may be new. */
  ghost predicate OnlyNeeded(g: Graph, rank: Ranking, key: Key, before: set<Key>, after: set<Key>)
    requires Ranked(g, rank) && key in g
  {
    forall k :: k in after - before ==> Needs(g, rank, key, k)
  }

  predicate NoNewStarting(before: map<Key, State>, after: map<Key, State>) {
    forall k :: k in after && after[k] == Starting ==> k in before && before[k] == Starting
  }

  /** What a dependency's start adds is needed by the service itself, and is not the service. */
  lemma NeededBelow(g: Graph, rank: Ranking, key: Key, i: nat, a: set<Key>, b: set<Key>, c: set<Key>)
    requires Ranked(g, rank) && key in g && i < |g[key]|
    requires OnlyNeeded(g, rank, key, a, b) && OnlyNeeded(g, rank, g[key][i], b, c)
    ensures OnlyNeeded(g, rank, key, a, c)
    ensures key !in c - b
    ensures forall d :: Needs(g, rank, g[key][i], d) ==> Needs(g, rank, key, d) && d != key
  {
    forall d | Needs(g, rank, g[key][i], d)
      ensures Needs(g, rank, key, d) && d != key
    {
      NeedsRanksLower(g, rank, g[key][i], d);
    }
    forall k | k in c - b
      ensures k != key
    {
      assert Needs(g, rank, g[key][i], k);
    }
  }

  lemma {:induction false} NeedsRanksLower(g: Graph, rank: Ranking, k: Key, d: Key)
    requires Ranked(g, rank) && k in g && Needs(g, rank, k, d)
    ensures d in g && rank[d] <= rank[k]
    decreases rank[k]
  {
    if k != d {
      var i :| 0 <= i < |g[k]| && Needs(g, rank, g[k][i], d);
      NeedsRanksLower(g, rank, g[k][i], d);
    }
  }

  // ---------------------------------------------------------------- the manager

  class ServiceManager {
    const services: Graph
    var states: map<Key, State>
    /** What the probes find running. */
    var up: set<Key>

    constructor (services: Graph, up: set<Key>)
      ensures this.services == services && this.up == up && states == map[]
    {
      this.services, this.up, states := services, up, map[];
    }

    function Probe(key: Key): State
      reads `up
    {
      if key in up then Running else Stopped
    }

    method RefreshStates()
      modifies `states
      ensures NoNewStarting(old(states), states)
    {
      states := map k | k in services ::
        if k in states && (states[k] == Starting || states[k] == Stopping) then states[k] else Probe(k);
    }

    /** One attempt, after the dependencies are up. */
    method Launch(key: Key, env: Key -> Outcome) returns (r: ActionResult)
      modifies `states, `up
      ensures up == if env(key) == FailsDown then old(up) else old(up) + {key}
      ensures r == ActionResult(key, env(key) == Comes, if env(key) == Comes then Running else Failed)
      ensures states == old(states)[key := r.state]
    {
      states := states[key := Starting];
      var outcome := env(key);
      if outcome != FailsDown {
        up := up + {key};
      }
      if outcome == Comes {
        states := states[key := Running];
        r := ActionResult(key, true, Running);
      } else {
        states := states[key := Failed];
        r := ActionResult(key, false, Failed);
      }
    }

    /** Terminates on every acyclic graph.  Nothing is stopped; what is new has its dependencies
        running, whether the start succeeds or fails; on success the service runs, and a failure names
        a service that was down and whose own attempt failed. */
    method Start(key: Key, env: Key -> Outcome, ghost rank: Ranking) returns (r: ActionResult)
      requires Ranked(services, rank) && key in services
      modifies `states, `up
      ensures Grows(services, old(up), up) && OnlyNeeded(services, rank, key, old(up), up)
      ensures forall k :: k in up - old(up) && k != r.key ==> env(k) == Comes
      ensures r.ok ==> r.key == key && key in up && (key !in old(up) ==> env(key) == Comes)
      ensures !r.ok ==> Needs(services, rank, key, r.key) && r.key !in old(up) && env(r.key) != Comes
      ensures !r.ok ==> r.key != key ==> key !in old(up) && key !in up
      ensures NoNewStarting(old(states), states)
      decreases rank[key]
    {
      RefreshStates();
      if key in up {
        return ActionResult(key, true, Running);
      }
      var deps := services[key];
      var i := 0;
      while i < |deps|
        invariant 0 <= i <= |deps| && key !in up
        invariant forall j :: 0 <= j < i ==> deps[j] in up
        invariant Grows(services, old(up), up) && OnlyNeeded(services, rank, key, old(up), up)
        invariant forall k :: k in up - old(up) ==> env(k) == Comes
        invariant NoNewStarting(old(states), states)
      {
        if deps[i] !in up {
          ghost var before := up;
          var sub := Start(deps[i], env, rank);
          GrowsTrans(services, old(up), before, up);
          NeededBelow(services, rank, key, i, old(up), before, up);
          if !sub.ok {
            return sub;
          }
        }
        i := i + 1;
      }
      ghost var ready := up;
      assert DependenciesUp(services, key, ready);
      r := Launch(key, env);
      assert Grows(services, ready, up);
      GrowsTrans(services, old(up), ready, up);
    }

    /** `start` with `with_dependencies=False`. */
    method StartAlone(key: Key, env: Key -> Outcome) returns (r: ActionResult)
      requires key in services
      modifies `states, `up
      ensures up == PassOne(old(up), key, env) && r.key == key
      ensures r.ok <==> ComesUp(old(up), key, env)
      ensures NoNewStarting(old(states), states)
    {
      RefreshStates();
      if key in up {
        return ActionResult(key, true, Running);
      }
      r := Launch(key, env);
    }

    /** The backend pass, then the second look at the worker pool, which may have to be restarted:
        `pings` are the answers to the two pings, `again` the outcomes of the restart. */
    method EnsureBackend(order: seq<Key>, env: Key -> Outcome, worker: Key, pings: (bool, bool), again: Key -> Outcome,
                         ghost rank: Ranking)
      returns (failure: Option<ActionResult>)
      requires Ranked(services, rank) && worker in services && forall i :: 0 <= i < |order| ==> order[i] in services
      modifies `states, `up
      ensures failure.Some? ==> !failure.value.ok
      ensures failure.None? ==> forall i :: 0 <= i < |order| ==> order[i] in up
      ensures (Topological(services, order) && Closed(services, old(up))
               && NobodyNeeds(services, old(up) + (set k | k in order), worker)) ==> Closed(services, up)
      ensures var passed, end := Pass(old(up), order, env), PassEnd(old(up), order, env);
              if end < |order| then up == passed && failure.Some? && failure.value.key == order[end]
              else if pings.0 || pings.1 then up == passed && failure.None?
              else Grows(services, passed - {worker}, up) && OnlyNeeded(services, rank, worker, passed - {worker}, up)
    {
      var k := 0;
      while k < |order|
        invariant 0 <= k <= |order| && PassEnd(old(up), order[..k], env) == k
        invariant up == Pass(old(up), order[..k], env)
        invariant forall i :: 0 <= i < k ==> order[i] in up
      {
        ghost var before := up;
        PassSnoc(old(up), order, k, env);
        if order[k] !in up {
          var r := StartAlone(order[k], env);
          if !r.ok {
            PassStops(old(up), order, k, env);
            PassClosedAlways(services, rank, old(up), order, env);
            return Some(r);
          }
        }
        k := k + 1;
      }
      assert order[..k] == order;
      PassClosedAlways(services, rank, old(up), order, env);
      PassWithin(old(up), order, env);
      failure := None;
      if !pings.0 && !pings.1 {
        ghost var passed := up;
        up := up - {worker};
        states := states[worker := Stopped];
        if Closed(services, passed) && NobodyNeeds(services, passed, worker) {
          StopKeepsClosed(services, passed, worker);
        }
        ghost var stopped := up;
        var r := Start(worker, again, rank);
        if Closed(services, stopped) {
          GrowsKeepsClosed(services, stopped, up);
        }
        if !r.ok {
          failure := Some(r);
        }
      }
    }
  }

  // ---------------------------------------------------------------- the backend pass

  predicate ComesUp(up: set<Key>, key: Key, env: Key -> Outcome) {
    key in up || env(key) == Comes
  }

  function PassOne(up: set<Key>, key: Key, env: Key -> Outcome): set<Key> {
    if env(key) == FailsDown then up else up + {key}
  }

  /** How many services the pass got through; all of them, or up to the first failure. */
  function PassEnd(up: set<Key>, order: seq<Key>, env: Key -> Outcome): (n: nat)
    ensures n <= |order|
  {
    if order == [] then 0
    else
      var n := |order| - 1;
      var before := PassEnd(up, order[..n], env);
      if before == n && ComesUp(Pass(up, order[..n], env), order[n], env) then n + 1 else before
  }

  /** What runs after the pass, which stops at the first failure. */
  function Pass(up: set<Key>, order: seq<Key>, env: Key -> Outcome): set<Key> {
    if order == [] then up
    else
      var n := |order| - 1;
      var before := Pass(up, order[..n], env);
      if PassEnd(up, order[..n], env) == n then PassOne(before, order[n], env) else before
  }

  lemma PassSnoc(up: set<Key>, order: seq<Key>, k: nat, env: Key -> Outcome)
    requires k < |order| && PassEnd(up, order[..k], env) == k
    ensures var before := Pass(up, order[..k], env);
            && Pass(up, order[..k + 1], env) == PassOne(before, order[k], env)
            && PassEnd(up, order[..k + 1], env) == if ComesUp(before, order[k], env) then k + 1 else k
  {
    assert order[..k + 1][..k] == order[..k];
  }

  lemma {:induction false} PassStops(up: set<Key>, order: seq<Key>, k: nat, env: Key -> Outcome)
    requires k < |order| && PassEnd(up, order[..k + 1], env) == k
    ensures PassEnd(up, order, env) == k && Pass(up, order, env) == Pass(up, order[..k + 1], env)
    decreases |order|
  {
    var n := |order| - 1;
    if k == n {
      assert order[..k + 1] == order;
    } else {
      assert order[..n][..k + 1] == order[..k + 1];
      PassStops(up, order[..n], k, env);
    }
  }

  /** Every service comes after its dependencies. */
  ghost predicate Topological(g: Graph, order: seq<Key>) {
    forall i :: 0 <= i < |order| ==> DependenciesBefore(g, order, i)
  }

  ghost predicate DependenciesBefore(g: Graph, order: seq<Key>, i: nat)
    requires i < |order|
  {
    order[i] in g ==> forall j :: 0 <= j < |g[order[i]]| ==> g[order[i]][j] in order[..i]
  }

  /** None of `up` lists `key` among its dependencies. */
  predicate NobodyNeeds(g: Graph, up: set<Key>, key: Key) {
    forall k :: k in up && k in g ==> key !in g[k]
  }

  lemma StopKeepsClosed(g: Graph, up: set<Key>, key: Key)
    requires Closed(g, up) && NobodyNeeds(g, up, key)
    ensures Closed(g, up - {key})
  {
    forall k | k in up - {key}
      ensures DependenciesUp(g, k, up - {key})
    {
      assert DependenciesUp(g, k, up);
    }
  }

  lemma {:induction false} PassWithin(up: set<Key>, order: seq<Key>, env: Key -> Outcome)
    ensures Pass(up, order, env) <= up + (set k | k in order)
  {
    if order != [] {
      PassWithin(up, order[..|order| - 1], env);
    }
  }

  lemma {:induction false} PassHas(up: set<Key>, order: seq<Key>, env: Key -> Outcome)
    ensures forall i :: 0 <= i < PassEnd(up, order, env) ==> order[i] in Pass(up, order, env)
  {
    if order != [] {
      PassHas(up, order[..|order| - 1], env);
    }
  }

  lemma {:induction false} PassKeepsClosed(g: Graph, up: set<Key>, order: seq<Key>, env: Key -> Outcome)
    requires Closed(g, up) && Topological(g, order)
    ensures Closed(g, Pass(up, order, env))
  {
    if order != [] {
      var n := |order| - 1;
      var before := order[..n];
      assert Topological(g, before) by {
        forall i | 0 <= i < n
          ensures DependenciesBefore(g, before, i)
        {
          assert DependenciesBefore(g, order, i) && before[..i] == order[..i];
        }
      }
      PassKeepsClosed(g, up, before, env);
      if PassEnd(up, before, env) == n {
        PassHas(up, before, env);
        OneMoreClosed(g, Pass(up, before, env), order, env);
      }
    }
  }

  lemma OneMoreClosed(g: Graph, up: set<Key>, order: seq<Key>, env: Key -> Outcome)
    requires order != [] && Closed(g, up) && DependenciesBefore(g, order, |order| - 1)
    requires forall i :: 0 <= i < |order| - 1 ==> order[i] in up
    ensures Closed(g, PassOne(up, order[|order| - 1], env))
  {
    var key := order[|order| - 1];
    forall k | k in up + {key}
      ensures DependenciesUp(g, k, up + {key})
    {
      assert k in up ==> DependenciesUp(g, k, up);
    }
  }

  lemma PassClosedAlways(g: Graph, rank: Ranking, up: set<Key>, order: seq<Key>, env: Key -> Outcome)
    requires Ranked(g, rank)
    ensures Closed(g, up) && Topological(g, order) ==> Closed(g, Pass(up, order, env))
  {
    if Closed(g, up) && Topological(g, order) {
      PassKeepsClosed(g, up, order, env);
    }
  }

  lemma {:induction false} PassAddsOnly(order: seq<Key>, env: Key -> Outcome)
    ensures forall k :: k in Pass({}, order, env) ==> env(k) != FailsDown
  {
    if order != [] {
      PassAddsOnly(order[..|order| - 1], env);
    }
  }

  lemma {:induction false} PassReaches(up: set<Key>, order: seq<Key>, env: Key -> Outcome, m: nat)
    requires m <= |order| && forall i :: 0 <= i < m ==> env(order[i]) == Comes
    ensures PassEnd(up, order, env) >= m
  {
    if order != [] {
      var n := |order| - 1;
      PassReaches(up, order[..n], env, if m <= n then m else n);
    }
  }

  /** In any other order, let everything up to the misplaced service come and the rest fail. */
  lemma PassOpensUp(g: Graph, rank: Ranking, order: seq<Key>) returns (up: set<Key>, env: Key -> Outcome)
    requires Ranked(g, rank) && !Topological(g, order)
    ensures Closed(g, up) && !Closed(g, Pass(up, order, env))
  {
    var i :| 0 <= i < |order| && !DependenciesBefore(g, order, i);
    var j :| 0 <= j < |g[order[i]]| && g[order[i]][j] !in order[..i];
    var early, d := order[..i + 1], g[order[i]][j];
    up, env := {}, k => if k in early then Comes else FailsDown;
    assert d != order[i];
    PassReaches(up, order, env, i + 1);
    PassHas(up, order, env);
    PassAddsOnly(order, env);
    assert d !in early && env(d) == FailsDown;
    assert order[i] in Pass(up, order, env) && !DependenciesUp(g, order[i], Pass(up, order, env));
  }

  /** The pass keeps every closed set closed, whatever fails, exactly when its order is topological. */
  lemma PassClosedIffTopological(g: Graph, rank: Ranking, order: seq<Key>)
    requires Ranked(g, rank)
    ensures (forall up, env :: Closed(g, up) ==> Closed(g, Pass(up, order, env))) <==> Topological(g, order)
  {
    if Topological(g, order) {
      forall up, env | Closed(g, up)
        ensures Closed(g, Pass(up, order, env))
      {
        PassKeepsClosed(g, up, order, env);
      }
    } else {
      var up, env := PassOpensUp(g, rank, order);
    }
  }

  // ---------------------------------------------------------------- the registry

  const KEYS: set<Key> :=
    {Kafka, MongoDb, Api, Analytics, Dataplane, VictoriaMetrics, PerfVmSink, Nginx, Osrm, Rabbit, Celery, Simulation}

  function Dependencies(k: Key): seq<Key> {
    match k
    case Api => [MongoDb]
    case Analytics => [MongoDb]
    case Dataplane => [Kafka, MongoDb]
    case VictoriaMetrics => [Kafka]
    case PerfVmSink => [Kafka, VictoriaMetrics]
    case Nginx => [Api]
    case Celery => [Rabbit, Nginx]
    case Simulation => [Kafka, MongoDb, Api, Analytics, Nginx, Osrm, Rabbit, Celery]
    case _ => []
  }

  const SERVICES: Graph := map k | k in KEYS :: Dependencies(k)

  const BACKEND_START_ORDER: seq<Key> :=
    [Kafka, MongoDb, Dataplane, VictoriaMetrics, Api, Analytics, PerfVmSink, Osrm, Nginx, Rabbit, Celery]

  function Depth(k: Key): nat {
    match k
    case Api => 1
    case Analytics => 1
    case Dataplane => 1
    case VictoriaMetrics => 1
    case PerfVmSink => 2
    case Nginx => 2
    case Celery => 3
    case Simulation => 4
    case _ => 0
  }

  const RANKS: Ranking := map k | k in KEYS :: Depth(k)

  /** The registry is acyclic, and of its services the simulation alone depends on the worker pool. */
  lemma RegistryIsAcyclic()
    ensures Ranked(SERVICES, RANKS)
    ensures forall up :: NobodyNeeds(SERVICES, up, Celery) <==> Simulation !in up
  {
    assert Celery in SERVICES[Simulation];
  }

  /** After a backend pass without failure everything the simulation depends on is running, directly or
      through others. */
  lemma SimulationIsProvided(up: set<Key>, d: Key)
    requires Closed(SERVICES, up) && forall i :: 0 <= i < |BACKEND_START_ORDER| ==> BACKEND_START_ORDER[i] in up
    requires Ranked(SERVICES, RANKS) && Needs(SERVICES, RANKS, Simulation, d) && d != Simulation
    ensures d in up
  {
    var i :| 0 <= i < |SERVICES[Simulation]| && Needs(SERVICES, RANKS, SERVICES[Simulation][i], d);
    Provided(up, i);
    ClosedHasAllNeeded(SERVICES, RANKS, up, SERVICES[Simulation][i], d);
  }

  lemma Provided(up: set<Key>, i: nat)
    requires forall j :: 0 <= j < |BACKEND_START_ORDER| ==> BACKEND_START_ORDER[j] in up
    requires i < |Dependencies(Simulation)|
    ensures Dependencies(Simulation)[i] in up
  {
    assert BACKEND_START_ORDER[[0, 1, 4, 5, 8, 7, 9, 10][i]] == Dependencies(Simulation)[i];
  }

  lemma Earlier(order: seq<Key>, j: nat, i: nat)
    requires j < i <= |order|
    ensures order[j] in order[..i]
  {
    assert order[..i][j] == order[j];
  }

  /** The backend start order is topological, so the pass keeps the running set closed. */
  lemma StartOrderIsTopological()
    ensures Topological(SERVICES, BACKEND_START_ORDER)
  {
    forall i | 0 <= i < |BACKEND_START_ORDER|
      ensures DependenciesBefore(SERVICES, BACKEND_START_ORDER, i)
    {
      StartsAfterDependencies(i);
    }
  }

  lemma StartsAfterDependencies(i: nat)
    requires i < |BACKEND_START_ORDER|
    ensures DependenciesBefore(SERVICES, BACKEND_START_ORDER, i)
  {
    var order := BACKEND_START_ORDER;
    match order[i]
    case Api => Earlier(order, 1, i);
    case Analytics => Earlier(order, 1, i);
    case Dataplane => Earlier(order, 0, i); Earlier(order, 1, i);
    case VictoriaMetrics => Earlier(order, 0, i);
    case PerfVmSink => Earlier(order, 0, i); Earlier(order, 3, i);
    case Nginx => Earlier(order, 4, i);
    case Celery => Earlier(order, 9, i); Earlier(order, 8, i);
    case _ =>
  }
}
