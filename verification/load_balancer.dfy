/**
 * `LoadBalancer`: an endpoint list with per-endpoint health flags, in-flight
 * connection counts and last-selection times, and four selection strategies.
 * `random.choice` is modelled by a `pick` the caller supplies: the choice is
 * `candidates[pick % |candidates|]`, so every pick gives a candidate and every
 * candidate is given by some pick.
 */
module LoadBalancer {
  import opened Wrappers
  import opened Seqs
  import opened Values

  datatype Strategy = RoundRobin | Random | HealthBased | LeastConnections

  /** The enum's string values. */
  function StrategyName(s: Strategy): string {
    match s
    case RoundRobin => "round_robin"
    case Random => "random"
    case HealthBased => "health_based"
    case LeastConnections => "least_connections"
  }

  /** The client's `strategy_map` lookup; None for a name it does not list. */
  function ParseStrategy(name: string): (r: Option<Strategy>)
    ensures r.Some? ==> StrategyName(r.value) == name
    ensures forall s :: StrategyName(s) == name ==> r == Some(s)
  {
    if name == "round_robin" then Some(RoundRobin)
    else if name == "random" then Some(Random)
    else if name == "health_based" then Some(HealthBased)
    else if name == "least_connections" then Some(LeastConnections)
    else None
  }

  datatype Balancer = Balancer(
    endpoints: seq<string>,
    strategy: Strategy,
    index: nat,
    connections: map<string, int>,
    lastSelected: map<string, real>,
    health: map<string, bool>)

  /** `_health_status.get(ep, True)`. */
  predicate Healthy(b: Balancer, e: string) {
    e !in b.health || b.health[e]
  }

  /** `_connection_counts.get(ep, 0)`. */
  function Count(b: Balancer, e: string): int {
    if e in b.connections then b.connections[e] else 0
  }

  predicate CountsNonNegative(b: Balancer) {
    forall e :: e in b.connections ==> b.connections[e] >= 0
  }

  /** `e` has no entry in any of the three per-endpoint tables. */
  predicate Untracked(b: Balancer, e: string) {
    e !in b.connections && e !in b.lastSelected && e !in b.health
  }

  /** `e` has the entries of a newly added endpoint: 0 connections, selected at 0.0, healthy. */
  predicate Fresh(b: Balancer, e: string) {
    && e in b.connections && b.connections[e] == 0
    && e in b.lastSelected && b.lastSelected[e] == 0.0
    && e in b.health && b.health[e]
  }

  /** `a` and `b` hold the same entries for `e` in all three tables. */
  predicate SameStateFor(a: Balancer, b: Balancer, e: string) {
    && (e in a.connections <==> e in b.connections)
    && (e in a.connections ==> a.connections[e] == b.connections[e])
    && (e in a.lastSelected <==> e in b.lastSelected)
    && (e in a.lastSelected ==> a.lastSelected[e] == b.lastSelected[e])
    && (e in a.health <==> e in b.health)
    && (e in a.health ==> a.health[e] == b.health[e])
  }

  /** `LoadBalancer(endpoints, strategy)`; the unused health-check callback is not modelled. */
  function New(endpoints: seq<string>, strategy: Strategy): (b: Balancer)
    ensures b.endpoints == endpoints && b.strategy == strategy && b.index == 0
    ensures forall e :: e in endpoints <==> Fresh(b, e)
    ensures forall e :: e !in endpoints ==> Untracked(b, e)
    ensures CountsNonNegative(b)
  {
    Balancer(endpoints, strategy, 0,
      map e | e in endpoints :: 0,
      map e | e in endpoints :: 0.0,
      map e | e in endpoints :: true)
  }

  /** `add_endpoint(ep)`: appended with fresh state unless already listed. */
  function Add(b: Balancer, ep: string): (r: Balancer)
    ensures ep in b.endpoints ==> r == b
    ensures ep !in b.endpoints ==> r.endpoints == b.endpoints + [ep] && Fresh(r, ep)
    ensures forall e :: e != ep ==> SameStateFor(r, b, e)
    ensures r.strategy == b.strategy && r.index == b.index
    ensures CountsNonNegative(b) ==> CountsNonNegative(r)
  {
    if ep in b.endpoints then b
    else b.(endpoints := b.endpoints + [ep],
            connections := b.connections[ep := 0],
            lastSelected := b.lastSelected[ep := 0.0],
            health := b.health[ep := true])
  }

  /** `remove_endpoint(ep)`: the first copy leaves the list and all state for `ep` is dropped. */
  function Remove(b: Balancer, ep: string): (r: Balancer)
    ensures ep !in b.endpoints ==> r == b
    ensures ep in b.endpoints ==>
      multiset(r.endpoints) == multiset(b.endpoints) - multiset{ep} && Untracked(r, ep)
    ensures forall e :: e != ep ==> SameStateFor(r, b, e)
    ensures r.strategy == b.strategy && r.index == b.index
    ensures CountsNonNegative(b) ==> CountsNonNegative(r)
  {
    if ep !in b.endpoints then b
    else b.(endpoints := RemoveFirst(b.endpoints, ep),
            connections := b.connections - {ep},
            lastSelected := b.lastSelected - {ep},
            health := b.health - {ep})
  }

  function RemoveAll(b: Balancer, xs: seq<string>): (r: Balancer)
    ensures r.strategy == b.strategy && r.index == b.index
    decreases |xs|
  {
    if xs == [] then b else RemoveAll(Remove(b, xs[0]), xs[1..])
  }

  function AddAll(b: Balancer, xs: seq<string>): (r: Balancer)
    ensures r.strategy == b.strategy && r.index == b.index
    decreases |xs|
  {
    if xs == [] then b else AddAll(Add(b, xs[0]), xs[1..])
  }

  /**
   * `update_endpoints(endpoints)`. The source iterates over two Python sets,
   * whose order depends on string hashing; `removeOrder` and `addOrder` are
   * those iteration orders.
   */
  function Update(b: Balancer, endpoints: seq<string>, removeOrder: seq<string>, addOrder: seq<string>): Balancer
    requires Enumerates(removeOrder, Elems(b.endpoints) - Elems(endpoints))
    requires Enumerates(addOrder, Elems(endpoints) - Elems(b.endpoints))
  {
    AddAll(RemoveAll(b, removeOrder), addOrder)
  }

  /** `set(old) - set(new)` iterated in order of first appearance in the old list. */
  function Dropped(b: Balancer, endpoints: seq<string>): (r: seq<string>)
    ensures Enumerates(r, Elems(b.endpoints) - Elems(endpoints))
  {
    var f := Filter(b.endpoints, e => e !in endpoints);
    assert Elems(f) == Elems(b.endpoints) - Elems(endpoints);
    Dedup(f)
  }

  /** `set(new) - set(old)` iterated in order of first appearance in the new list. */
  function Joined(b: Balancer, endpoints: seq<string>): (r: seq<string>)
    ensures Enumerates(r, Elems(endpoints) - Elems(b.endpoints))
  {
    var f := Filter(endpoints, e => e !in b.endpoints);
    assert Elems(f) == Elems(endpoints) - Elems(b.endpoints);
    Dedup(f)
  }

  /**
   * How Python iterates a set of endpoint URLs: some order of its elements,
   * fixed by string hashing, which the model does not compute.
   */
  type SetOrder = set<string> -> seq<string>

  /**
   * The elements of `s` in the order `order` gives. Python iterates every
   * element exactly once; an `order` that does not is replaced by `fallback`.
   */
  function InOrder(order: SetOrder, s: set<string>, fallback: seq<string>): (r: seq<string>)
    requires Enumerates(fallback, s)
    ensures Enumerates(r, s)
    ensures Enumerates(order(s), s) ==> r == order(s)
  {
    if Enumerates(order(s), s) then order(s) else fallback
  }

  /** `update_endpoints(endpoints)` with both set differences iterated in `order`. */
  function UpdateWith(b: Balancer, endpoints: seq<string>, order: SetOrder): (r: Balancer)
    ensures r.strategy == b.strategy && r.index == b.index
  {
    Update(b, endpoints,
      InOrder(order, Elems(b.endpoints) - Elems(endpoints), Dropped(b, endpoints)),
      InOrder(order, Elems(endpoints) - Elems(b.endpoints), Joined(b, endpoints)))
  }

  /** The endpoints `update_endpoints` removes or adds when the list goes from `before` to `after`. */
  function Churn(before: seq<string>, after: seq<string>): set<string> {
    (Elems(before) - Elems(after)) + (Elems(after) - Elems(before))
  }

  /** Removing the endpoints of `xs` one by one leaves every other endpoint's state alone. */
  lemma {:induction false} RemoveAllFrame(b: Balancer, xs: seq<string>)
    ensures forall e :: e !in xs ==> SameStateFor(RemoveAll(b, xs), b, e)
    ensures xs == [] ==> RemoveAll(b, xs) == b
    decreases |xs|
  {
    if xs != [] {
      RemoveAllFrame(Remove(b, xs[0]), xs[1..]);
      forall e | e !in xs ensures SameStateFor(RemoveAll(b, xs), b, e) {
        assert e != xs[0] && e !in xs[1..];
      }
    }
  }

  /** Adding the endpoints of `xs` one by one leaves every other endpoint's state alone. */
  lemma {:induction false} AddAllFrame(b: Balancer, xs: seq<string>)
    ensures forall e :: e !in xs ==> SameStateFor(AddAll(b, xs), b, e)
    ensures xs == [] ==> AddAll(b, xs) == b
    decreases |xs|
  {
    if xs != [] {
      AddAllFrame(Add(b, xs[0]), xs[1..]);
      forall e | e !in xs ensures SameStateFor(AddAll(b, xs), b, e) {
        assert e != xs[0] && e !in xs[1..];
      }
    }
  }

  /**
   * Whatever the iteration order and even with a repeated endpoint, an
   * update touches only the state of endpoints in exactly one of the two
   * lists, and one that adds and removes nothing changes nothing.
   */
  lemma UpdateWithFrame(b: Balancer, endpoints: seq<string>, order: SetOrder)
    ensures var r := UpdateWith(b, endpoints, order);
      && (forall e :: e !in Churn(b.endpoints, endpoints) ==> SameStateFor(r, b, e))
      && (Churn(b.endpoints, endpoints) == {} ==> r == b)
  {
    var rm := InOrder(order, Elems(b.endpoints) - Elems(endpoints), Dropped(b, endpoints));
    var ad := InOrder(order, Elems(endpoints) - Elems(b.endpoints), Joined(b, endpoints));
    RemoveAllFrame(b, rm);
    AddAllFrame(RemoveAll(b, rm), ad);
    if Churn(b.endpoints, endpoints) == {} {
      EmptyEnumeration(rm);
      EmptyEnumeration(ad);
    }
  }

  lemma EmptyEnumeration(s: seq<string>)
    ensures Elems(s) == {} ==> s == []
  {
    if s != [] {
      assert s[0] in Elems(s);
    }
  }

  lemma {:induction false} RemoveAllSpec(b: Balancer, xs: seq<string>)
    requires NoDup(b.endpoints) && NoDup(xs) && Elems(xs) <= Elems(b.endpoints)
    ensures var r := RemoveAll(b, xs);
      && NoDup(r.endpoints)
      && Elems(r.endpoints) == Elems(b.endpoints) - Elems(xs)
      && (forall e :: e in xs ==> Untracked(r, e))
      && (forall e :: e !in xs ==> SameStateFor(r, b, e))
      && r.strategy == b.strategy && r.index == b.index
    decreases |xs|
  {
    if xs != [] {
      var x := xs[0];
      assert x in b.endpoints by { assert x in Elems(xs); }
      RemoveFirstNoDup(b.endpoints, x);
      var b1 := Remove(b, x);
      assert xs == [x] + xs[1..];
      assert Elems(xs[1..]) <= Elems(b1.endpoints) by {
        forall e | e in Elems(xs[1..]) ensures e in Elems(b1.endpoints) {
          assert e in Elems(xs) && e != x;
        }
      }
      RemoveAllSpec(b1, xs[1..]);
      var r := RemoveAll(b1, xs[1..]);
      forall e | e in xs ensures Untracked(r, e) {
        if e != x {
          assert e in xs[1..];
        } else {
          assert x !in xs[1..];
        }
      }
    }
  }

  lemma {:induction false} AddAllSpec(b: Balancer, xs: seq<string>)
    requires NoDup(b.endpoints) && NoDup(xs) && Elems(xs) * Elems(b.endpoints) == {}
    ensures var r := AddAll(b, xs);
      && NoDup(r.endpoints)
      && Elems(r.endpoints) == Elems(b.endpoints) + Elems(xs)
      && (forall e :: e in xs ==> Fresh(r, e))
      && (forall e :: e !in xs ==> SameStateFor(r, b, e))
      && r.strategy == b.strategy && r.index == b.index
    decreases |xs|
  {
    if xs != [] {
      var x := xs[0];
      assert x !in Elems(b.endpoints) by {
        assert x in Elems(xs);
        assert x !in Elems(xs) * Elems(b.endpoints);
      }
      var b1 := Add(b, x);
      assert xs == [x] + xs[1..];
      assert NoDup(b1.endpoints);
      assert Elems(xs[1..]) * Elems(b1.endpoints) == {} by {
        forall e | e in Elems(xs[1..]) ensures e !in Elems(b1.endpoints) {
          assert e in Elems(xs) && e != x;
          assert e !in Elems(xs) * Elems(b.endpoints);
          assert e !in b.endpoints;
        }
      }
      AddAllSpec(b1, xs[1..]);
      var r := AddAll(b1, xs[1..]);
      forall e | e in xs ensures Fresh(r, e) {
        if e != x {
          assert e in xs[1..];
        } else {
          assert x !in xs[1..];
        }
      }
    }
  }

  /**
   * After `update_endpoints(new)` on a duplicate-free list the endpoint set is
   * set(new): removed endpoints lose all state, added ones start fresh, and
   * every other endpoint keeps its state.
   */
  lemma UpdateSpec(b: Balancer, endpoints: seq<string>, removeOrder: seq<string>, addOrder: seq<string>)
    requires NoDup(b.endpoints)
    requires Enumerates(removeOrder, Elems(b.endpoints) - Elems(endpoints))
    requires Enumerates(addOrder, Elems(endpoints) - Elems(b.endpoints))
    ensures var r := Update(b, endpoints, removeOrder, addOrder);
      && NoDup(r.endpoints)
      && Elems(r.endpoints) == Elems(endpoints)
      && (forall e :: e in b.endpoints && e !in endpoints ==> Untracked(r, e))
      && (forall e :: e in endpoints && e !in b.endpoints ==> Fresh(r, e))
      && (forall e :: (e in b.endpoints <==> e in endpoints) ==> SameStateFor(r, b, e))
      && r.strategy == b.strategy && r.index == b.index
  {
    RemoveAllSpec(b, removeOrder);
    var b1 := RemoveAll(b, removeOrder);
    assert Elems(addOrder) * Elems(b1.endpoints) == {};
    AddAllSpec(b1, addOrder);
    var r := AddAll(b1, addOrder);
    forall e | e in b.endpoints && e !in endpoints ensures Untracked(r, e) {
      assert e in Elems(removeOrder);
      assert e !in Elems(addOrder);
    }
    forall e | e in endpoints && e !in b.endpoints ensures Fresh(r, e) {
      assert e in Elems(addOrder);
    }
    forall e | (e in b.endpoints <==> e in endpoints) ensures SameStateFor(r, b, e) {
      assert e !in Elems(removeOrder) && e !in Elems(addOrder);
    }
  }

  /** `UpdateSpec` for the set iteration order of the running interpreter. */
  lemma UpdateWithSpec(b: Balancer, endpoints: seq<string>, order: SetOrder)
    requires NoDup(b.endpoints)
    ensures var r := UpdateWith(b, endpoints, order);
      && NoDup(r.endpoints)
      && Elems(r.endpoints) == Elems(endpoints)
      && (forall e :: e in b.endpoints && e !in endpoints ==> Untracked(r, e))
      && (forall e :: e in endpoints && e !in b.endpoints ==> Fresh(r, e))
      && (forall e :: (e in b.endpoints <==> e in endpoints) ==> SameStateFor(r, b, e))
  {
    UpdateSpec(b, endpoints,
      InOrder(order, Elems(b.endpoints) - Elems(endpoints), Dropped(b, endpoints)),
      InOrder(order, Elems(endpoints) - Elems(b.endpoints), Joined(b, endpoints)));
  }

  /** An update never makes a connection count negative. */
  lemma UpdateWithCounts(b: Balancer, endpoints: seq<string>, order: SetOrder)
    ensures CountsNonNegative(b) ==> CountsNonNegative(UpdateWith(b, endpoints, order))
  {
    if CountsNonNegative(b) {
      var rm := InOrder(order, Elems(b.endpoints) - Elems(endpoints), Dropped(b, endpoints));
      RemoveAllCounts(b, rm);
      AddAllCounts(RemoveAll(b, rm), InOrder(order, Elems(endpoints) - Elems(b.endpoints), Joined(b, endpoints)));
    }
  }

  lemma {:induction false} RemoveAllCounts(b: Balancer, xs: seq<string>)
    requires CountsNonNegative(b)
    ensures CountsNonNegative(RemoveAll(b, xs))
    decreases |xs|
  {
    if xs != [] {
      RemoveAllCounts(Remove(b, xs[0]), xs[1..]);
    }
  }

  lemma {:induction false} AddAllCounts(b: Balancer, xs: seq<string>)
    requires CountsNonNegative(b)
    ensures CountsNonNegative(AddAll(b, xs))
    decreases |xs|
  {
    if xs != [] {
      AddAllCounts(Add(b, xs[0]), xs[1..]);
    }
  }

  /** `mark_healthy(ep)` and `mark_unhealthy(ep)`. */
  function Mark(b: Balancer, ep: string, healthy: bool): (r: Balancer)
    ensures Healthy(r, ep) == healthy
    ensures forall e :: e != ep ==> Healthy(r, e) == Healthy(b, e)
    ensures r.endpoints == b.endpoints && r.index == b.index && r.strategy == b.strategy
    ensures r.connections == b.connections && r.lastSelected == b.lastSelected
  {
    b.(health := b.health[ep := healthy])
  }

  /** `increment_connections(ep)` at wall-clock time `now`. */
  function Increment(b: Balancer, ep: string, now: real): (r: Balancer)
    ensures Count(r, ep) == Count(b, ep) + 1
    ensures forall e :: e != ep ==> Count(r, e) == Count(b, e) && (e in r.connections <==> e in b.connections)
    ensures ep in r.lastSelected && r.lastSelected[ep] == now
    ensures forall e :: e != ep ==> (e in r.lastSelected <==> e in b.lastSelected)
    ensures forall e :: e != ep && e in b.lastSelected ==> r.lastSelected[e] == b.lastSelected[e]
    ensures r.endpoints == b.endpoints && r.index == b.index && r.health == b.health && r.strategy == b.strategy
    ensures CountsNonNegative(b) ==> CountsNonNegative(r)
  {
    b.(connections := b.connections[ep := Count(b, ep) + 1],
       lastSelected := b.lastSelected[ep := now])
  }

  /** `decrement_connections(ep)`: never below zero. */
  function Decrement(b: Balancer, ep: string): (r: Balancer)
    ensures Count(r, ep) == Max(0, Count(b, ep) - 1) && ep in r.connections
    ensures forall e :: e != ep ==> Count(r, e) == Count(b, e) && (e in r.connections <==> e in b.connections)
    ensures r.endpoints == b.endpoints && r.index == b.index && r.health == b.health && r.strategy == b.strategy
    ensures r.lastSelected == b.lastSelected
    ensures CountsNonNegative(b) ==> CountsNonNegative(r)
  {
    b.(connections := b.connections[ep := Max(0, Count(b, ep) - 1)])
  }

  /** An increment followed by a decrement leaves every count as it was. */
  lemma IncrementDecrement(b: Balancer, ep: string, now: real)
    requires CountsNonNegative(b)
    ensures forall e :: Count(Decrement(Increment(b, ep, now), ep), e) == Count(b, e)
  {}

  datatype Selection =
    | NoEndpoint                    // None
    | Selected(endpoint: string)
    | MissingCount(endpoint: string) // KeyError from `_connection_counts[ep]`

  datatype Step = Step(balancer: Balancer, selection: Selection)

  function HealthyIn(b: Balancer, xs: seq<string>): (r: seq<string>)
    ensures forall e :: e in r <==> e in xs && Healthy(b, e)
  {
    Filter(xs, e => Healthy(b, e))
  }

  /** `xs[idx % len]`, then `idx := (idx + 1) % len`. */
  function RoundRobinOver(b: Balancer, xs: seq<string>): (r: Step)
    requires xs != []
    ensures r.selection == Selected(xs[b.index % |xs|])
    ensures r.balancer == b.(index := (b.index + 1) % |xs|)
  {
    Step(b.(index := (b.index + 1) % |xs|), Selected(xs[b.index % |xs|]))
  }

  /** The first endpoint of `xs` with no connection count, if any. */
  function FirstMissing(xs: seq<string>, counts: map<string, int>): (r: Option<string>)
    ensures r.None? <==> forall e :: e in xs ==> e in counts
    ensures r.Some? ==> r.value in xs && r.value !in counts
  {
    if xs == [] then None
    else if xs[0] !in counts then Some(xs[0])
    else FirstMissing(xs[1..], counts)
  }

  /** `min(counts[ep] for ep in xs)`. */
  function MinCount(xs: seq<string>, counts: map<string, int>): (r: int)
    requires xs != [] && forall e :: e in xs ==> e in counts
    ensures forall e :: e in xs ==> r <= counts[e]
    ensures exists e :: e in xs && counts[e] == r
  {
    if |xs| == 1 then counts[xs[0]]
    else
      var rest := MinCount(xs[1..], counts);
      assert forall e :: e in xs <==> e == xs[0] || e in xs[1..];
      Min(counts[xs[0]], rest)
  }

  /** `select_endpoint()`; `pick` stands for what `random.choice` draws. */
  function Select(b: Balancer, pick: nat): (r: Step)
    ensures r.selection.NoEndpoint? <==> b.endpoints == []
    ensures r.selection.Selected? ==> r.selection.endpoint in b.endpoints
    ensures r.selection.MissingCount? ==>
      b.strategy == LeastConnections && r.selection.endpoint in b.endpoints && r.selection.endpoint !in b.connections
    ensures r.balancer == b.(index := r.balancer.index)
    ensures b.strategy in {Random, LeastConnections} ==> r.balancer == b
  {
    var eps := b.endpoints;
    if eps == [] then Step(b, NoEndpoint)
    else
      match b.strategy
      case RoundRobin => RoundRobinOver(b, eps)
      case Random => Step(b, Selected(eps[pick % |eps|]))
      case HealthBased =>
        var h := HealthyIn(b, eps);
        var available := if h != [] then h else eps;
        var healthy := HealthyIn(b, available);
        if healthy != [] then RoundRobinOver(b, healthy) else Step(b, Selected(available[0]))
      case LeastConnections =>
        match FirstMissing(eps, b.connections)
        case Some(e) => Step(b, MissingCount(e))
        case None =>
          var low := MinCount(eps, b.connections);
          var candidates := Filter(eps, e => e in b.connections && b.connections[e] == low);
          assert exists e :: e in candidates;
          Step(b, Selected(candidates[pick % |candidates|]))
  }

  /** Successive selections with the given picks, threading the balancer. */
  function SelectMany(b: Balancer, picks: seq<nat>): (r: (Balancer, seq<Selection>))
    ensures |r.1| == |picks|
    decreases |picks|
  {
    if picks == [] then (b, [])
    else
      var s := Select(b, picks[0]);
      var rest := SelectMany(s.balancer, picks[1..]);
      (rest.0, [s.selection] + rest.1)
  }

  /**
   * Round robin over an unchanged list of n endpoints: the j-th selection is
   * `endpoints[(index + j) % n]` and the index ends at `(index + k) % n`.
   */
  lemma RoundRobinCycle(b: Balancer, picks: seq<nat>)
    requires b.strategy == RoundRobin && b.endpoints != []
    ensures var n := |b.endpoints|;
      var r := SelectMany(b, picks);
      && (forall j :: 0 <= j < |picks| ==> r.1[j] == Selected(b.endpoints[(b.index + j) % n]))
      && r.0 == b.(index := if picks == [] then b.index else (b.index + |picks|) % n)
  {
    RoundRobinPicks(b, picks);
    RoundRobinIndex(b, picks);
  }

  lemma {:induction false} RoundRobinPicks(b: Balancer, picks: seq<nat>)
    requires b.strategy == RoundRobin && b.endpoints != []
    ensures forall j :: 0 <= j < |picks| ==>
      SelectMany(b, picks).1[j] == Selected(b.endpoints[(b.index + j) % |b.endpoints|])
    decreases |picks|
  {
    if picks != [] {
      var n := |b.endpoints|;
      var s := Select(b, picks[0]);
      RoundRobinSelect(b, picks[0]);
      assert s.balancer == b.(index := (b.index + 1) % n);
      assert s.selection == Selected(b.endpoints[b.index % n]);
      RoundRobinPicks(s.balancer, picks[1..]);
      var r := SelectMany(b, picks);
      var rest := SelectMany(s.balancer, picks[1..]);
      assert r.1 == [s.selection] + rest.1;
      forall j | 1 <= j < |picks|
        ensures r.1[j] == Selected(b.endpoints[(b.index + j) % n])
      {
        assert r.1[j] == rest.1[j - 1];
        assert rest.1[j - 1] == Selected(b.endpoints[(s.balancer.index + (j - 1)) % n]);
        ModAdd(b.index + 1, j - 1, n);
      }
    }
  }

  lemma {:induction false} RoundRobinIndex(b: Balancer, picks: seq<nat>)
    requires b.strategy == RoundRobin && b.endpoints != []
    ensures SelectMany(b, picks).0 == b.(index := if picks == [] then b.index else (b.index + |picks|) % |b.endpoints|)
    decreases |picks|
  {
    if picks != [] {
      var n := |b.endpoints|;
      var s := Select(b, picks[0]);
      RoundRobinSelect(b, picks[0]);
      assert s.balancer == b.(index := (b.index + 1) % n);
      RoundRobinIndex(s.balancer, picks[1..]);
      assert SelectMany(b, picks).0 == SelectMany(s.balancer, picks[1..]).0;
      if |picks| > 1 {
        ModAdd(b.index + 1, |picks| - 1, n);
      }
    }
  }

  /** A round-robin selection is `RoundRobinOver` the whole list. */
  lemma RoundRobinSelect(b: Balancer, pick: nat)
    requires b.strategy == RoundRobin && b.endpoints != []
    ensures Select(b, pick) == RoundRobinOver(b, b.endpoints)
  {
  }

  /** Euclidean division is unique: a quotient and remainder in range are the ones `/` and `%` give. */
  lemma ModUnique(x: int, n: int, q: int, r: int)
    requires n > 0 && 0 <= r < n && x == q * n + r
    ensures x % n == r
  {
    var q0, r0 := x / n, x % n;
    assert (q - q0) * n == r0 - r by {
      assert x == q0 * n + r0;
      assert (q - q0) * n == q * n - q0 * n;
    }
    MulBounds(q - q0, n);
  }

  lemma MulBounds(d: int, n: int)
    requires n > 0
    ensures d > 0 ==> d * n >= n
    ensures d < 0 ==> d * n <= -n
  {
    if d > 0 {
      assert (d - 1) * n >= 0;
    } else if d < 0 {
      assert (-d - 1) * n >= 0;
    }
  }

  lemma ModAdd(a: nat, j: nat, n: nat)
    requires n > 0
    ensures (a % n + j) % n == (a + j) % n
  {
    var q, r := a / n, a % n;
    var q1, r1 := (r + j) / n, (r + j) % n;
    assert a == q * n + r;
    assert r + j == q1 * n + r1;
    assert a + j == (q + q1) * n + r1;
    ModUnique(a + j, n, q + q1, r1);
  }

  /** Round robin from index 0 visits every endpoint within the first n selections. */
  lemma RoundRobinVisitsAll(b: Balancer, picks: seq<nat>, t: nat)
    requires b.strategy == RoundRobin && t < |b.endpoints| && |picks| >= |b.endpoints|
    requires b.index < |b.endpoints|
    ensures exists j :: 0 <= j < |b.endpoints| && SelectMany(b, picks).1[j] == Selected(b.endpoints[t])
  {
    var n := |b.endpoints|;
    var j := RotationOffset(b.index, t, n);
    RoundRobinPicks(b, picks);
    assert SelectMany(b, picks).1[j] == Selected(b.endpoints[(b.index + j) % n]);
  }

  /** The number of steps round robin takes from index `i` to reach `t`. */
  lemma RotationOffset(i: nat, t: nat, n: nat) returns (j: nat)
    requires i < n && t < n
    ensures j < n && (i + j) % n == t
  {
    j := if t >= i then t - i else t + n - i;
    if t >= i {
      ModUnique(i + j, n, 0, t);
    } else {
      ModUnique(i + j, n, 1, t);
    }
  }

  /**
   * HEALTH_BASED never returns an unhealthy endpoint while a listed endpoint
   * is healthy, and with none healthy returns the first endpoint without
   * moving the index.
   */
  lemma HealthBasedSelection(b: Balancer, pick: nat)
    requires b.strategy == HealthBased && b.endpoints != []
    ensures var r := Select(b, pick);
      && r.selection.Selected?
      && ((exists e :: e in b.endpoints && Healthy(b, e)) ==> Healthy(b, r.selection.endpoint))
      && ((forall e :: e in b.endpoints ==> !Healthy(b, e)) ==>
            r.selection == Selected(b.endpoints[0]) && r.balancer == b)
  {
    var h := HealthyIn(b, b.endpoints);
    if exists e :: e in b.endpoints && Healthy(b, e) {
      var w :| w in b.endpoints && Healthy(b, w);
      assert w in h;
      assert HealthyIn(b, h) != [] by { assert w in HealthyIn(b, h); }
    }
  }

  /** LEAST_CONNECTIONS returns an endpoint whose count is the minimum over the list. */
  lemma LeastConnectionsMinimal(b: Balancer, pick: nat)
    requires b.strategy == LeastConnections && b.endpoints != []
    requires forall e :: e in b.endpoints ==> e in b.connections
    ensures var r := Select(b, pick);
      && r.selection.Selected?
      && forall e :: e in b.endpoints ==> b.connections[r.selection.endpoint] <= b.connections[e]
  {
    var low := MinCount(b.endpoints, b.connections);
    var candidates := Filter(b.endpoints, e => e in b.connections && b.connections[e] == low);
    assert exists e :: e in candidates;
    assert candidates[pick % |candidates|] in candidates;
  }

  /** RANDOM can return every listed endpoint, each for some pick. */
  lemma RandomReachesEvery(b: Balancer, i: nat)
    requires b.strategy == Random && i < |b.endpoints|
    ensures Select(b, i).selection == Selected(b.endpoints[i])
  {}
}
