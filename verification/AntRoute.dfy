/** Ant routing, last step: a route is rebuilt from the unordered bag of channel hops that two ants collected. */
module AntRoute {
  import opened Basics

  type Address = nat
  type u64 = x: int | 0 <= x <= 0xffff_ffff_ffff_ffff

  /** One channel on the way, seen from its local end. */
  datatype Hop = Hop(local: Address, remote: Address, localBalance: u64, remoteBalance: u64, totalPay: u64)
  {
    /** The same channel seen from the other end. */
    function Reverted(): Hop { Hop(remote, local, remoteBalance, localBalance, totalPay) }

    predicate Touches(a: Address) { local == a || remote == a }
  }

  function Without(list: seq<Hop>, k: nat): seq<Hop>
    requires k < |list|
  {
    list[..k] + list[k + 1..]
  }

  /** The position of the last hop at `a`. */
  function LastAt(list: seq<Hop>, a: Address): (r: Option<nat>)
    ensures r.Some? ==> r.value < |list| && list[r.value].Touches(a)
    ensures r.Some? ==> forall j :: r.value < j < |list| ==> !list[j].Touches(a)
    ensures r.None? ==> forall j :: 0 <= j < |list| ==> !list[j].Touches(a)
    decreases |list|
  {
    if list == [] then None
    else if list[|list| - 1].Touches(a) then Some(|list| - 1)
    else LastAt(list[..|list| - 1], a)
  }

  /** `hop` as travelled from `a`. */
  function From(hop: Hop, a: Address): Hop { if hop.remote == a then hop.Reverted() else hop }

  /** The route found by following hops from `seed` until `end` is reached or no hop is left to follow. */
  function Route(list: seq<Hop>, seed: Address, end: Address): seq<Hop>
    decreases |list|
  {
    match LastAt(list, seed)
    case None => []
    case Some(k) =>
      var hop := From(list[k], seed);
      if hop.remote == end then [hop] else [hop] + Route(Without(list, k), hop.remote, end)
  }

  /** Removes and returns the last hop at `local`, turned so that it starts there. */
  method FindResponse(local: Address, list: seq<Hop>) returns (r: Option<Hop>, rest: seq<Hop>)
    ensures match LastAt(list, local)
            case None => r == None && rest == list
            case Some(k) => r == Some(From(list[k], local)) && rest == Without(list, k)
  {
    var index := 0;
    var find := false;
    for i := 0 to |list|
      invariant find ==> index < i && list[index].Touches(local) && forall j :: index < j < i ==> !list[j].Touches(local)
      invariant !find ==> forall j :: 0 <= j < i ==> !list[j].Touches(local)
    {
      if list[i].local == local || list[i].remote == local {
        index := i;
        find := true;
      }
    }
    if find {
      var response := list[index];
      rest := list[..index] + list[index + 1..];
      if response.remote == local {
        return Some(response.Reverted()), rest;
      }
      return Some(response), rest;
    }
    return None, list;
  }

  method FormatResponseList(responses: seq<Hop>, start: Address, end: Address) returns (result: seq<Hop>)
    ensures result == Route(responses, start, end)
  {
    result := [];
    var seed := start;
    var done := false;
    var list := responses;
    while !done
      invariant Route(responses, start, end) == if done then result else result + Route(list, seed, end)
      decreases !done, |list|
    {
      var next, rest := FindResponse(seed, list);
      list := rest;
      match next
      case Some(response) =>
        if response.remote == end {
          done := true;
        }
        seed := response.remote;
        result := result + [response];
      case None =>
        done := true;
    }
  }

  // ----- what a route is

  /** Consecutive hops meet. */
  ghost predicate IsWalk(hops: seq<Hop>, a: Address, b: Address)
    decreases |hops|
  {
    if hops == [] then a == b
    else hops[0].local == a && IsWalk(hops[1..], hops[0].remote, b)
  }

  lemma {:induction false} WalkExtended(path: seq<Hop>, a: Address, b: Address, hop: Hop)
    requires IsWalk(path, a, b) && hop.local == b
    ensures IsWalk(path + [hop], a, hop.remote)
    decreases |path|
  {
    if path != [] {
      assert (path + [hop])[1..] == path[1..] + [hop];
      WalkExtended(path[1..], path[0].remote, b, hop);
    } else {
      assert (path + [hop])[1..] == [];
    }
  }

  /** `route` uses hops of `list`, each at most once and possibly turned round. */
  ghost predicate UsesOnce(route: seq<Hop>, list: seq<Hop>)
    decreases |route|
  {
    route == [] || exists k :: 0 <= k < |list| && route[0] in {list[k], list[k].Reverted()} && UsesOnce(route[1..], Without(list, k))
  }

  /** The number of hop ends at `a`. */
  function Degree(list: seq<Hop>, a: Address): nat
    decreases |list|
  {
    if list == [] then 0 else Ends(list[0], a) + Degree(list[1..], a)
  }

  function Ends(hop: Hop, a: Address): nat { At(hop.local, a) + At(hop.remote, a) }

  function At(b: Address, a: Address): nat { if a == b then 1 else 0 }

  /** Every node is the end of an even number of hops, except that `a` and `b` each count one more. */
  ghost predicate ParityOf(list: seq<Hop>, a: Address, b: Address) {
    forall v :: Degree(list, v) % 2 == (At(a, v) + At(b, v)) % 2
  }

  lemma {:induction false} DegreeOfSplit(s: seq<Hop>, t: seq<Hop>, a: Address)
    ensures Degree(s + t, a) == Degree(s, a) + Degree(t, a)
    decreases |s|
  {
    if s == [] {
      assert s + t == t;
    } else {
      assert (s + t)[1..] == s[1..] + t;
      DegreeOfSplit(s[1..], t, a);
    }
  }

  lemma DegreeWithout(list: seq<Hop>, k: nat, a: Address)
    requires k < |list|
    ensures Degree(list, a) == Degree(Without(list, k), a) + Ends(list[k], a)
  {
    assert list == list[..k] + list[k..];
    DegreeOfSplit(list[..k], list[k..], a);
    DegreeOfSplit(list[..k], list[k + 1..], a);
  }

  lemma {:induction false} DegreeZero(list: seq<Hop>, a: Address)
    requires forall j :: 0 <= j < |list| ==> !list[j].Touches(a)
    ensures Degree(list, a) == 0
    decreases |list|
  {
    if list != [] {
      DegreeZero(list[1..], a);
    }
  }

  /** Along a walk every node is entered as often as it is left, except at the two ends. */
  lemma {:induction false} WalkParity(hops: seq<Hop>, a: Address, b: Address)
    requires IsWalk(hops, a, b)
    ensures ParityOf(hops, a, b)
    decreases |hops|
  {
    if hops != [] {
      WalkParity(hops[1..], hops[0].remote, b);
      forall v
        ensures Degree(hops, v) % 2 == (At(a, v) + At(b, v)) % 2
      {
        assert Degree(hops[1..], v) % 2 == (At(hops[0].remote, v) + At(b, v)) % 2;
      }
    }
  }

  /** Two walks that end at the same node, put together in either order. */
  lemma MetWalksParity(s: seq<Hop>, t: seq<Hop>, a: Address, b: Address, m: Address)
    requires IsWalk(s, a, m) && IsWalk(t, b, m)
    ensures ParityOf(s + t, a, b) && ParityOf(t + s, a, b)
  {
    hide IsWalk, Degree, At;
    WalkParity(s, a, m);
    WalkParity(t, b, m);
    forall v
      ensures Degree(s + t, v) % 2 == (At(a, v) + At(b, v)) % 2
      ensures Degree(t + s, v) % 2 == (At(a, v) + At(b, v)) % 2
    {
      MetDegrees(s, t, a, b, m, v);
    }
  }

  lemma MetDegrees(s: seq<Hop>, t: seq<Hop>, a: Address, b: Address, m: Address, v: Address)
    requires ParityOf(s, a, m) && ParityOf(t, b, m)
    ensures Degree(s + t, v) % 2 == (At(a, v) + At(b, v)) % 2
    ensures Degree(t + s, v) % 2 == (At(a, v) + At(b, v)) % 2
  {
    hide Degree, At;
    DegreeOfSplit(s, t, v);
    DegreeOfSplit(t, s, v);
    SameParity(Degree(s, v), Degree(t, v), At(a, v), At(b, v), At(m, v));
  }

  lemma SameParity(x: nat, y: nat, p: nat, q: nat, c: nat)
    requires x % 2 == (p + c) % 2 && y % 2 == (q + c) % 2
    ensures (x + y) % 2 == (p + q) % 2
  {
  }

  /** Taking the hop followed from `seed` moves the odd node along. */
  lemma ParityStep(list: seq<Hop>, seed: Address, end: Address, k: nat)
    requires ParityOf(list, seed, end) && k < |list| && list[k].Touches(seed)
    ensures ParityOf(Without(list, k), From(list[k], seed).remote, end)
  {
    var next := From(list[k], seed).remote;
    forall v
      ensures Degree(Without(list, k), v) % 2 == (At(next, v) + At(end, v)) % 2
    {
      DegreeWithout(list, k, v);
      assert Ends(list[k], v) == At(seed, v) + At(next, v);
    }
  }

  /** The rebuilt route is a walk from `start` over distinct hops of the list; unless it gets stuck it stops at `end`. */
  lemma {:induction false} RouteIsTrail(list: seq<Hop>, start: Address, end: Address)
    ensures var r := Route(list, start, end);
            && UsesOnce(r, list)
            && (r != [] ==> IsWalk(r, start, r[|r| - 1].remote))
            && (forall i :: 0 <= i < |r| - 1 ==> r[i].remote != end)
    decreases |list|
  {
    var r := Route(list, start, end);
    match LastAt(list, start)
    case None =>
    case Some(k) =>
      var hop := From(list[k], start);
      assert r[0] == hop && r[0] in {list[k], list[k].Reverted()};
      if hop.remote == end {
        assert r[1..] == [];
      } else {
        RouteIsTrail(Without(list, k), hop.remote, end);
        assert r[1..] == Route(Without(list, k), hop.remote, end);
      }
      assert UsesOnce(r[1..], Without(list, k));
  }

  /** Under the parity condition the route never gets stuck before `end`. */
  lemma {:induction false} RouteReachesEnd(list: seq<Hop>, start: Address, end: Address)
    requires ParityOf(list, start, end)
    ensures var r := Route(list, start, end); if r == [] then start == end else r[|r| - 1].remote == end
    decreases |list|
  {
    match LastAt(list, start)
    case None =>
      DegreeZero(list, start);
    case Some(k) =>
      var hop := From(list[k], start);
      ParityStep(list, start, end, k);
      if hop.remote != end {
        RouteReachesEnd(Without(list, k), hop.remote, end);
      }
  }

  /** Rebuilding never dead-ends: from the hops of a walk `start` to m and a walk `end` to m, in either order, the
      result is a walk from `start` to `end` over distinct hops, passing `end` only at the very end. */
  lemma {:induction false} RouteRebuilt(s: seq<Hop>, t: seq<Hop>, list: seq<Hop>, start: Address, end: Address, m: Address)
    requires IsWalk(s, start, m) && IsWalk(t, end, m) && (list == s + t || list == t + s)
    ensures var r := Route(list, start, end);
            && IsWalk(r, start, end) && UsesOnce(r, list)
            && (forall i :: 0 <= i < |r| - 1 ==> r[i].remote != end)
  {
    MetWalksParity(s, t, start, end, m);
    RouteReachesEnd(list, start, end);
    RouteIsTrail(list, start, end);
  }

  // ----- choosing among several routes

  function Pressure(route: seq<Hop>): int
    decreases |route|
  {
    if route == [] then 0
    else
      var hop := route[|route| - 1];
      Pressure(route[..|route| - 1]) + hop.totalPay + hop.remoteBalance - hop.localBalance
  }

  /** The pressure of a route is that of its parts. */
  lemma {:induction false} PressureOfSum(s: seq<Hop>, t: seq<Hop>)
    ensures Pressure(s + t) == Pressure(s) + Pressure(t)
    ensures Pressure([]) == 0
    decreases |t|
  {
    if t == [] {
      assert s + t == s;
    } else {
      PressureOfSum(s, t[..|t| - 1]);
      assert (s + t)[..|s + t| - 1] == s + t[..|t| - 1];
    }
  }

  /** Funds on the near side of a hop relieve the route by as much; funds on the far side and pay burden it. */
  lemma PressureOfHop(route: seq<Hop>, k: nat, hop: Hop)
    requires k < |route| && hop.local == route[k].local && hop.remote == route[k].remote
    ensures Pressure(route[k := hop]) - Pressure(route)
         == (route[k].localBalance - hop.localBalance) + (hop.remoteBalance - route[k].remoteBalance) + (hop.totalPay - route[k].totalPay)
  {
    var a, z := route[..k], route[k + 1..];
    assert route == a + [route[k]] + z && route[k := hop] == a + [hop] + z;
    PressureOfSum(a + [route[k]], z);
    PressureOfSum(a, [route[k]]);
    PressureOfSum(a + [hop], z);
    PressureOfSum(a, [hop]);
    PressureOfOne(hop);
    PressureOfOne(route[k]);
  }

  lemma PressureOfOne(hop: Hop)
    ensures Pressure([hop]) == hop.totalPay + hop.remoteBalance - hop.localBalance
  {
    assert [hop][..0] == [];
  }

  /** The same route travelled the other way. */
  function Backwards(route: seq<Hop>): (r: seq<Hop>)
    ensures |r| == |route|
  {
    seq(|route|, i requires 0 <= i < |route| => route[|route| - 1 - i].Reverted())
  }

  function TotalPay(route: seq<Hop>): nat { if route == [] then 0 else route[0].totalPay + TotalPay(route[1..]) }

  /** There and back, the balances cancel out and every hop is paid for twice. */
  lemma {:induction false} PressureBackwards(route: seq<Hop>)
    ensures Pressure(route) + Pressure(Backwards(route)) == 2 * TotalPay(route)
    decreases |route|
  {
    if route != [] {
      var rest := route[1..];
      PressureBackwards(rest);
      assert route == [route[0]] + rest;
      assert Backwards(route) == Backwards(rest) + [route[0].Reverted()];
      PressureOfSum([route[0]], rest);
      PressureOfSum(Backwards(rest), [route[0].Reverted()]);
      PressureOfOne(route[0]);
      PressureOfOne(route[0].Reverted());
    }
  }

  /** A walk travelled the other way is a walk the other way. */
  lemma {:induction false} WalkBackwards(route: seq<Hop>, a: Address, b: Address)
    requires IsWalk(route, a, b)
    ensures IsWalk(Backwards(route), b, a)
    decreases |route|
  {
    if route != [] {
      WalkBackwards(route[1..], route[0].remote, b);
      assert Backwards(route) == Backwards(route[1..]) + [route[0].Reverted()];
      WalkExtended(Backwards(route[1..]), b, route[0].remote, route[0].Reverted());
    }
  }

  const I128_MAX: int := 0x7fff_ffff_ffff_ffff_ffff_ffff_ffff_ffff
  /** No vector holds more hops than this. */
  const MAX_HOPS: int := 0x0100_0000_0000_0000

  lemma {:induction false} RouteNoLonger(list: seq<Hop>, start: Address, end: Address)
    ensures |Route(list, start, end)| <= |list|
    decreases |list|
  {
    match LastAt(list, start)
    case None =>
    case Some(k) => RouteNoLonger(Without(list, k), From(list[k], start).remote, end);
  }

  lemma {:induction false} PressureFits(route: seq<Hop>)
    ensures Pressure(route) <= 0x1_ffff_ffff_ffff_fffe * |route|
    decreases |route|
  {
    if route != [] {
      PressureFits(route[..|route| - 1]);
    }
  }

  lemma CostFits(path: seq<Hop>, start: Address, end: Address)
    requires |path| <= MAX_HOPS
    ensures Cost(path, start, end) <= I128_MAX
  {
    RouteNoLonger(path, start, end);
    PressureFits(Route(path, start, end));
  }

  function Cost(path: seq<Hop>, start: Address, end: Address): int { Pressure(Route(path, start, end)) }

  method TotalPressure(balances: seq<Hop>) returns (pressure: int)
    ensures pressure == Pressure(balances)
  {
    pressure := 0;
    for i := 0 to |balances|
      invariant pressure == Pressure(balances[..i])
    {
      assert balances[..i + 1][..i] == balances[..i];
      pressure := pressure + balances[i].totalPay + balances[i].remoteBalance - balances[i].localBalance;
    }
    assert balances[..|balances|] == balances;
  }

  /** `byPressure` holds, for every pressure seen among the first `n` paths, the route of the last path with it. */
  ghost predicate Collected(paths: seq<seq<Hop>>, start: Address, end: Address, n: nat, byPressure: map<int, seq<Hop>>,
                            last: map<int, nat>)
    requires n <= |paths|
  {
    && byPressure.Keys == last.Keys
    && (forall c :: c in last ==> last[c] < n && byPressure[c] == Route(paths[last[c]], start, end) && Pressure(byPressure[c]) == c)
    && (forall j :: 0 <= j < n ==> Cost(paths[j], start, end) in last && j <= last[Cost(paths[j], start, end)])
  }

  /** The route with the least pressure; among equals the last one.  None exactly when no path came back. */
  method FindPathByPressure(paths: seq<seq<Hop>>, start: Address, end: Address) returns (r: Option<seq<Hop>>, ghost k: nat)
    requires forall i :: 0 <= i < |paths| ==> |paths[i]| <= MAX_HOPS
    ensures r.None? <==> paths == []
    ensures r.Some? ==> k < |paths| && r.value == Route(paths[k], start, end)
    ensures r.Some? ==> forall j :: 0 <= j < |paths| ==> Cost(paths[k], start, end) <= Cost(paths[j], start, end)
    ensures r.Some? ==> forall j :: k < j < |paths| ==> Cost(paths[k], start, end) < Cost(paths[j], start, end)
  {
    hide Route, Pressure;
    var balanceMap: map<int, seq<Hop>> := map[];
    var minPressure := I128_MAX;
    ghost var last: map<int, nat> := map[];
    k := 0;
    for n := 0 to |paths|
      invariant Collected(paths, start, end, n, balanceMap, last)
      invariant forall j :: 0 <= j < n ==> minPressure <= Cost(paths[j], start, end)
      invariant if n == 0 then minPressure == I128_MAX else minPressure in last
    {
      CostFits(paths[n], start, end);
      var balances := FormatResponseList(paths[n], start, end);
      var pressure := TotalPressure(balances);
      balanceMap := balanceMap[pressure := balances];
      last := last[pressure := n];
      if pressure < minPressure {
        minPressure := pressure;
      }
    }
    if minPressure in balanceMap {
      k := last[minPressure];
      r := Some(balanceMap[minPressure]);
    } else {
      r := None;
    }
  }
}
