/** The precomputed agent source: non-orders launch at their own step, orders first in, first out and
    at most `cap` per step. */
module Spawner {
  import opened Options

  type Role = nat

  /** `domain` says whether the item goes to the agent scheduler; the others boot before the run. */
  datatype Item = Item(id: nat, role: Role, domain: bool, step: int)

  datatype RoleConfig = RoleConfig(role: Role, domain: bool, agents: seq<(nat, int)>)

  // ---------------------------------------------------------------- the registered items

  function RoleItems(c: RoleConfig, agents: seq<(nat, int)>): seq<Item> {
    if agents == [] then []
    else RoleItems(c, agents[..|agents| - 1])
         + [Item(agents[|agents| - 1].0, c.role, c.domain, agents[|agents| - 1].1)]
  }

  function AllItems(config: seq<RoleConfig>): seq<Item> {
    if config == [] then []
    else AllItems(config[..|config| - 1]) + RoleItems(config[|config| - 1], config[|config| - 1].agents)
  }

  /** The items due at `step`, in registration order. */
  function DueAt(items: seq<Item>, step: int): seq<Item> {
    if items == [] then []
    else
      var x := items[|items| - 1];
      DueAt(items[..|items| - 1], step) + (if x.domain && x.step == step then [x] else [])
  }

  function Boot(items: seq<Item>): seq<Item> {
    if items == [] then []
    else
      var x := items[|items| - 1];
      Boot(items[..|items| - 1]) + (if x.domain then [] else [x])
  }

  function LastStep(items: seq<Item>): nat {
    if items == [] then 0
    else
      var x := items[|items| - 1];
      var before := LastStep(items[..|items| - 1]);
      if x.domain && x.step > before then x.step else before
  }

  /** What a dictionary of lists holds for a key. */
  function Listed(registry: map<int, seq<Item>>, step: int): seq<Item> {
    if step in registry then registry[step] else []
  }

  ghost predicate Registers(registry: map<int, seq<Item>>, items: seq<Item>) {
    forall s :: Listed(registry, s) == DueAt(items, s)
  }

  predicate AllOrders(xs: seq<Item>, order: Role) {
    forall i :: 0 <= i < |xs| ==> xs[i].role == order
  }

  function Orders(xs: seq<Item>, order: Role): seq<Item> {
    if xs == [] then []
    else (if xs[0].role == order then [xs[0]] else []) + Orders(xs[1..], order)
  }

  function Others(xs: seq<Item>, order: Role): seq<Item> {
    if xs == [] then []
    else (if xs[0].role != order then [xs[0]] else []) + Others(xs[1..], order)
  }

  function Take(xs: seq<Item>, n: nat): seq<Item> {
    if |xs| <= n then xs else xs[..n]
  }

  function Drop(xs: seq<Item>, n: nat): seq<Item> {
    if |xs| <= n then [] else xs[n..]
  }

  // ---------------------------------------------------------------- the object

  class BatchedAgentSource {
    var registry: map<int, seq<Item>>
    var bootstrap: seq<Item>
    var maxStep: int
    var currentStep: int
    const cap: nat
    const orderRole: Role
    var backlog: seq<Item>
    ghost var items: seq<Item>

    ghost predicate Registered()
      reads `registry, `bootstrap, `maxStep, `items
    {
      Registers(registry, items) && bootstrap == Boot(items) && maxStep == LastStep(items)
    }

    ghost predicate Valid()
      reads this
    {
      Registered() && cap >= 1 && AllOrders(backlog, orderRole)
    }

    constructor (config: seq<RoleConfig>, spawnMax: int, orderRole: Role)
      ensures Valid() && items == AllItems(config) && backlog == [] && currentStep == -1
      ensures cap == Max(1, spawnMax) && this.orderRole == orderRole
    {
      registry, bootstrap, maxStep, currentStep := map[], [], 0, -1;
      cap := if spawnMax < 1 then 1 else spawnMax;
      this.orderRole, backlog, items := orderRole, [], [];
      new;
      var c := 0;
      while c < |config|
        invariant 0 <= c <= |config|
        invariant Registered() && items == AllItems(config[..c])
        invariant backlog == [] && currentStep == -1
      {
        RegisterRole(config[c]);
        assert config[..c + 1][..c] == config[..c];
        c := c + 1;
      }
      assert config[..c] == config;
    }

    method RegisterRole(role: RoleConfig)
      requires Registered()
      modifies `registry, `bootstrap, `maxStep, `items
      ensures Registered() && items == old(items) + RoleItems(role, role.agents)
    {
      var a := 0;
      while a < |role.agents|
        invariant 0 <= a <= |role.agents|
        invariant Registered() && items == old(items) + RoleItems(role, role.agents[..a])
      {
        Register(Item(role.agents[a].0, role.role, role.domain, role.agents[a].1));
        assert role.agents[..a + 1][..a] == role.agents[..a];
        a := a + 1;
      }
      assert role.agents[..a] == role.agents;
    }

    method Register(x: Item)
      requires Registered()
      modifies `registry, `bootstrap, `maxStep, `items
      ensures Registered() && items == old(items) + [x]
    {
      RegisterOne(registry, items, x);
      if x.domain {
        registry := registry[x.step := Listed(registry, x.step) + [x]];
        maxStep := Max(maxStep, x.step);
      } else {
        bootstrap := bootstrap + [x];
      }
      items := items + [x];
      assert Registers(registry, items);
      assert bootstrap == Boot(items);
      assert maxStep == LastStep(items);
    }

    method AgentsForStep(step: int) returns (launched: seq<Item>)
      requires Valid()
      modifies `currentStep, `backlog
      ensures Valid() && currentStep == step
      ensures launched == Others(DueAt(items, step), orderRole)
                          + Take(old(backlog) + Orders(DueAt(items, step), orderRole), cap)
      ensures backlog == Drop(old(backlog) + Orders(DueAt(items, step), orderRole), cap)
    {
      currentStep := step;
      var due := Listed(registry, step);
      ghost var arriving := due;
      if backlog != [] {
        due := backlog + due;
        backlog := [];
      }
      assert due == old(backlog) + arriving;
      SplitBacklog(old(backlog), arriving, orderRole);
      launched := Pick(due);
    }

    /** Non-orders first, then orders up to the cap; the rest is the new backlog. */
    method Pick(due: seq<Item>) returns (launched: seq<Item>)
      requires backlog == []
      modifies `backlog
      ensures launched == Others(due, orderRole) + Take(Orders(due, orderRole), cap)
      ensures backlog == Drop(Orders(due, orderRole), cap) && AllOrders(backlog, orderRole)
    {
      OrdersAreOrders(due, orderRole);
      var orders := Orders(due, orderRole);
      launched := Others(due, orderRole) + Take(orders, cap);
      var overflow := Drop(orders, cap);
      if overflow != [] {
        backlog := backlog + overflow;
      }
      assert backlog == overflow;
    }

    function IsExhausted(): bool
      reads this
    {
      currentStep >= maxStep && backlog == []
    }
  }

  lemma RegisterOne(registry: map<int, seq<Item>>, items: seq<Item>, x: Item)
    requires Registers(registry, items)
    ensures var longer := items + [x];
            && Registers(if x.domain then registry[x.step := Listed(registry, x.step) + [x]] else registry, longer)
            && Boot(longer) == Boot(items) + (if x.domain then [] else [x])
            && LastStep(longer) == if x.domain then Max(LastStep(items), x.step) else LastStep(items)
  {
    var longer := items + [x];
    assert longer[..|items|] == items;
    var changed := if x.domain then registry[x.step := Listed(registry, x.step) + [x]] else registry;
    forall s
      ensures Listed(changed, s) == DueAt(longer, s)
    {
      assert DueAt(longer, s) == DueAt(items, s) + (if x.domain && x.step == s then [x] else []);
    }
  }

  lemma {:induction false} SplitBacklog(backlog: seq<Item>, due: seq<Item>, order: Role)
    requires AllOrders(backlog, order)
    ensures Orders(backlog + due, order) == backlog + Orders(due, order)
    ensures Others(backlog + due, order) == Others(due, order)
  {
    if backlog == [] {
      assert backlog + due == due;
    } else {
      assert (backlog + due)[1..] == backlog[1..] + due;
      SplitBacklog(backlog[1..], due, order);
    }
  }

  lemma {:induction false} OrdersAreOrders(xs: seq<Item>, order: Role)
    ensures AllOrders(Orders(xs, order), order)
  {
    if xs != [] {
      OrdersAreOrders(xs[1..], order);
    }
  }

  // ---------------------------------------------------------------- consecutive calls from step 0

  /** The source's fixed part: what is registered, the cap, the order role. */
  datatype Plan = Plan(items: seq<Item>, cap: nat, order: Role)

  function NewOrders(p: Plan, s: int): seq<Item> {
    Orders(DueAt(p.items, s), p.order)
  }

  /** The backlog before call `n`. */
  function Backlog(p: Plan, n: nat): seq<Item>
    decreases n, 0
  {
    if n == 0 then [] else Drop(Queue(p, n - 1), p.cap)
  }

  /** The orders waiting when call `n` picks. */
  function Queue(p: Plan, n: nat): seq<Item>
    decreases n, 1
  {
    Backlog(p, n) + NewOrders(p, n)
  }

  function LaunchedOrders(p: Plan, n: nat): seq<Item> {
    Take(Queue(p, n), p.cap)
  }

  function Launched(p: Plan, n: nat): seq<Item> {
    Others(DueAt(p.items, n), p.order) + LaunchedOrders(p, n)
  }

  /** Everything the first `n` calls launched. */
  function LaunchedBefore(p: Plan, n: nat): seq<Item> {
    if n == 0 then [] else LaunchedBefore(p, n - 1) + Launched(p, n - 1)
  }

  /** After call `n`. */
  predicate Exhausted(p: Plan, n: nat) {
    n >= LastStep(p.items) && Backlog(p, n + 1) == []
  }

  /** Calling the object for step 0, 1, 2, ... is what the functions above describe. */
  method Replay(source: BatchedAgentSource, n: nat) returns (launched: seq<Item>)
    requires source.Valid() && source.backlog == []
    modifies source
    ensures source.Valid() && source.items == old(source.items)
    ensures var p := Plan(source.items, source.cap, source.orderRole);
            && launched == LaunchedBefore(p, n)
            && source.backlog == Backlog(p, n)
            && (n > 0 ==> (source.IsExhausted() <==> Exhausted(p, n - 1)))
  {
    launched := [];
    ghost var p := Plan(source.items, source.cap, source.orderRole);
    for s := 0 to n
      invariant source.Valid() && p == Plan(source.items, source.cap, source.orderRole)
      invariant source.items == old(source.items)
      invariant launched == LaunchedBefore(p, s) && source.backlog == Backlog(p, s)
      invariant s > 0 ==> source.currentStep == s - 1
    {
      var now := source.AgentsForStep(s);
      launched := launched + now;
    }
  }

  // ---------------------------------------------------------------- first in, first out, exact delay

  function OrdersLaunchedBefore(p: Plan, n: nat): seq<Item> {
    if n == 0 then [] else OrdersLaunchedBefore(p, n - 1) + LaunchedOrders(p, n - 1)
  }

  function OrdersDueBefore(p: Plan, n: nat): seq<Item> {
    if n == 0 then [] else OrdersDueBefore(p, n - 1) + NewOrders(p, n - 1)
  }

  /** Orders launch in the order they fall due, none lost and none twice. */
  lemma {:induction false} OrdersFifo(p: Plan, n: nat)
    ensures OrdersLaunchedBefore(p, n) + Backlog(p, n) == OrdersDueBefore(p, n)
  {
    if n > 0 {
      OrdersFifo(p, n - 1);
      var q := Queue(p, n - 1);
      assert Take(q, p.cap) + Drop(q, p.cap) == q;
    }
  }

  /** `k` rounds of `cap` orders each. */
  function Rounds(k: nat, cap: nat): nat {
    if k == 0 then 0 else Rounds(k - 1, cap) + cap
  }

  lemma {:induction false} RoundsIsProduct(k: nat, cap: nat)
    ensures Rounds(k, cap) == k * cap
  {
    if k > 0 {
      RoundsIsProduct(k - 1, cap);
    }
  }

  lemma {:induction false} DelayByRounds(p: Plan, s: nat, k: nat, r: nat)
    requires r < p.cap && Rounds(k, p.cap) + r < |Queue(p, s)|
    ensures r < |LaunchedOrders(p, s + k)|
    ensures LaunchedOrders(p, s + k)[r] == Queue(p, s)[Rounds(k, p.cap) + r]
    decreases k
  {
    if k > 0 {
      var place := Rounds(k - 1, p.cap) + r;
      assert Backlog(p, s + 1) == Queue(p, s)[p.cap..];
      assert Queue(p, s + 1)[place] == Queue(p, s)[place + p.cap];
      DelayByRounds(p, s + 1, k - 1, r);
    }
  }

  /** The order at place `q` of the queue at step `s` launches exactly `q` div `cap` steps later, at
      place `q` mod `cap` of that step's orders. */
  lemma ExactDelay(p: Plan, s: nat, q: nat)
    requires p.cap >= 1 && q < |Queue(p, s)|
    ensures q % p.cap < |LaunchedOrders(p, s + q / p.cap)|
    ensures LaunchedOrders(p, s + q / p.cap)[q % p.cap] == Queue(p, s)[q]
  {
    QuotientRemainder(q, p.cap);
    DelayByRounds(p, s, q / p.cap, q % p.cap);
  }

  lemma QuotientRemainder(q: nat, cap: nat)
    requires cap >= 1
    ensures 0 <= q / cap && Rounds(q / cap, cap) + q % cap == q && q % cap < cap
  {
    RoundsIsProduct(q / cap, cap);
  }

  lemma AtMostCapOrders(p: Plan, n: nat)
    ensures |LaunchedOrders(p, n)| <= p.cap
    ensures LaunchedOrders(p, n) == Orders(Launched(p, n), p.order)
    ensures Others(Launched(p, n), p.order) == Others(DueAt(p.items, n), p.order)
  {
    var free := Others(DueAt(p.items, n), p.order);
    BacklogOrders(p, n);
    OthersAreFree(DueAt(p.items, n), p.order);
    SplitOthers(free, LaunchedOrders(p, n), p.order);
  }

  lemma BacklogOrders(p: Plan, n: nat)
    ensures AllOrders(Queue(p, n), p.order)
  {
    OrdersAreOrders(DueAt(p.items, n), p.order);
    if n > 0 {
      BacklogOrders(p, n - 1);
      assert AllOrders(Backlog(p, n), p.order);
    }
  }

  lemma {:induction false} OthersAreFree(xs: seq<Item>, order: Role)
    ensures forall i :: 0 <= i < |Others(xs, order)| ==> Others(xs, order)[i].role != order
  {
    if xs != [] {
      OthersAreFree(xs[1..], order);
    }
  }

  lemma {:induction false} SplitOthers(free: seq<Item>, orders: seq<Item>, order: Role)
    requires forall i :: 0 <= i < |free| ==> free[i].role != order
    requires AllOrders(orders, order)
    ensures Orders(free + orders, order) == orders && Others(free + orders, order) == free
  {
    if free == [] {
      assert free + orders == orders;
      SplitBacklog(orders, [], order);
      assert orders + [] == orders;
    } else {
      assert (free + orders)[1..] == free[1..] + orders;
      SplitOthers(free[1..], orders, order);
    }
  }

  // ---------------------------------------------------------------- exactly once

  /** The items that fall due at one of the steps 0 .. n - 1. */
  function DueBefore(items: seq<Item>, n: int): multiset<Item> {
    if items == [] then multiset{}
    else
      var x := items[|items| - 1];
      DueBefore(items[..|items| - 1], n) + (if x.domain && 0 <= x.step < n then multiset{x} else multiset{})
  }

  lemma {:induction false} DueOneMore(items: seq<Item>, n: nat)
    ensures DueBefore(items, n + 1) == DueBefore(items, n) + multiset(DueAt(items, n))
  {
    if items != [] {
      DueOneMore(items[..|items| - 1], n);
    }
  }

  lemma {:induction false} DueNone(items: seq<Item>)
    ensures DueBefore(items, 0) == multiset{}
  {
    if items != [] {
      DueNone(items[..|items| - 1]);
    }
  }

  lemma {:induction false} PartsMakeWhole(xs: seq<Item>, order: Role)
    ensures multiset(xs) == multiset(Others(xs, order)) + multiset(Orders(xs, order))
  {
    if xs != [] {
      PartsMakeWhole(xs[1..], order);
      assert xs == [xs[0]] + xs[1..];
    }
  }

  lemma TakeDrop(xs: seq<Item>, n: nat)
    ensures multiset(Take(xs, n)) + multiset(Drop(xs, n)) == multiset(xs)
  {
    assert Take(xs, n) + Drop(xs, n) == xs;
  }

  lemma Regroup(l: multiset<Item>, b: multiset<Item>, d: multiset<Item>,
                l': multiset<Item>, b': multiset<Item>, n: multiset<Item>)
    requires l + b == d && l' + b' == b + n
    ensures (l + l') + b' == d + n
  {
    assert (l + l') + b' == l + (l' + b');
    assert l + (b + n) == (l + b) + n;
  }

  /** Nothing is lost or launched twice: what fell due is what was launched plus the backlog. */
  lemma {:induction false} Conservation(p: Plan, n: nat)
    ensures multiset(LaunchedBefore(p, n)) + multiset(Backlog(p, n)) == DueBefore(p.items, n)
  {
    if n == 0 {
      DueNone(p.items);
    } else {
      var m := n - 1;
      Conservation(p, m);
      DueOneMore(p.items, m);
      ConserveOne(p, m);
      Regroup(multiset(LaunchedBefore(p, m)), multiset(Backlog(p, m)), DueBefore(p.items, m),
              multiset(Launched(p, m)), multiset(Backlog(p, n)), multiset(DueAt(p.items, m)));
      Joined(LaunchedBefore(p, m), Launched(p, m));
    }
  }

  lemma Joined(xs: seq<Item>, ys: seq<Item>)
    ensures multiset(xs + ys) == multiset(xs) + multiset(ys)
  {
  }

  lemma ConserveOne(p: Plan, n: nat)
    ensures multiset(Launched(p, n)) + multiset(Backlog(p, n + 1))
         == multiset(Backlog(p, n)) + multiset(DueAt(p.items, n))
  {
    var due := DueAt(p.items, n);
    PartsMakeWhole(due, p.order);
    PickConserves(Others(due, p.order), Backlog(p, n), NewOrders(p, n), p.cap);
  }

  lemma PickConserves(free: seq<Item>, backlog: seq<Item>, orders: seq<Item>, cap: nat)
    ensures multiset(free + Take(backlog + orders, cap)) + multiset(Drop(backlog + orders, cap))
         == multiset(backlog) + (multiset(free) + multiset(orders))
  {
    TakeDrop(backlog + orders, cap);
    Joined(backlog, orders);
    Joined(free, Take(backlog + orders, cap));
    Rearrange(multiset(free), multiset(Take(backlog + orders, cap)), multiset(Drop(backlog + orders, cap)),
              multiset(backlog), multiset(orders));
  }

  lemma Rearrange(f: multiset<Item>, t: multiset<Item>, d: multiset<Item>, b: multiset<Item>, o: multiset<Item>)
    requires t + d == b + o
    ensures (f + t) + d == b + (f + o)
  {
    assert (f + t) + d == f + (t + d);
  }

  /** Every registered domain item. */
  function DomainItems(items: seq<Item>): multiset<Item> {
    if items == [] then multiset{}
    else
      var x := items[|items| - 1];
      DomainItems(items[..|items| - 1]) + (if x.domain then multiset{x} else multiset{})
  }

  /** Those registered for a step before 0. */
  function TooEarly(items: seq<Item>): multiset<Item> {
    if items == [] then multiset{}
    else
      var x := items[|items| - 1];
      TooEarly(items[..|items| - 1]) + (if x.domain && x.step < 0 then multiset{x} else multiset{})
  }

  lemma {:induction false} DueEventually(items: seq<Item>, n: nat)
    requires n > LastStep(items)
    ensures DomainItems(items) == DueBefore(items, n) + TooEarly(items)
  {
    if items != [] {
      DueEventually(items[..|items| - 1], n);
    }
  }

  /** Once the source says it is exhausted, every domain item has been launched exactly once, except
      those registered for a step before 0, which never are. */
  lemma ExhaustedMeansAllLaunched(p: Plan, n: nat)
    requires Exhausted(p, n)
    ensures multiset(LaunchedBefore(p, n + 1)) + TooEarly(p.items) == DomainItems(p.items)
    ensures multiset(LaunchedBefore(p, n + 1)) == DomainItems(p.items) <==> TooEarly(p.items) == multiset{}
  {
    Conservation(p, n + 1);
    DueEventually(p.items, n + 1);
    var all, early := DomainItems(p.items), TooEarly(p.items);
    if multiset(LaunchedBefore(p, n + 1)) == all {
      assert |all| == |all| + |early|;
    }
  }

  // ---------------------------------------------------------------- exhaustion

  lemma {:induction false} NothingDueAfter(items: seq<Item>, s: int)
    requires s > LastStep(items)
    ensures DueAt(items, s) == []
  {
    if items != [] {
      NothingDueAfter(items[..|items| - 1], s);
    }
  }

  /** Exhaustion is final: it stays, and every later call returns nothing. */
  lemma {:induction false} ExhaustedStays(p: Plan, n: nat, m: nat)
    requires Exhausted(p, n) && n <= m
    ensures Exhausted(p, m)
    ensures m > n ==> Launched(p, m) == []
    decreases m - n
  {
    if m > n {
      ExhaustedStays(p, n, m - 1);
      NothingDueAfter(p.items, m);
    }
  }

  lemma {:induction false} BacklogDrains(p: Plan, k: nat)
    requires p.cap >= 1
    ensures |Backlog(p, LastStep(p.items) + 1 + k)| <= Max(0, |Backlog(p, LastStep(p.items) + 1)| - k)
  {
    if k > 0 {
      BacklogDrains(p, k - 1);
      NothingDueAfter(p.items, LastStep(p.items) + k);
    }
  }

  /** And it is reached: at the latest one step per order still waiting after the last arrival. */
  lemma ExhaustionIsReached(p: Plan)
    requires p.cap >= 1
    ensures Exhausted(p, LastStep(p.items) + |Backlog(p, LastStep(p.items) + 1)|)
  {
    BacklogDrains(p, |Backlog(p, LastStep(p.items) + 1)|);
  }
}
