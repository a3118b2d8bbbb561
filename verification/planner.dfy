/** The leg-by-leg route estimator (main.py, `optimize_route`).

    Stops are visited in the order given; nothing is reordered. Each pair of
    consecutive stops becomes one leg, using a placeholder distance, one
    request to the traffic provider, and one travel-time estimate. */
module Planner {
  import opened Optional
  import opened Traffic
  import opened Estimator

  /** The distance, in km, every leg is assumed to cover. */
  const PlaceholderDistance: real := 10.0

  /** One entry of the returned route: `from`, `to`, `estimated_time`. */
  datatype Leg = Leg(from: Coordinate, to: Coordinate, estimatedTime: Estimate)

  /** Number of legs for `n` stops: one per consecutive pair, none for
      fewer than two stops. */
  function LegCount(n: nat): nat
  {
    if n < 2 then 0 else n - 1
  }

  /** The requests a route over `locations` makes, one per consecutive pair,
      in order. */
  function ConsecutiveQueries(apiKey: string, locations: seq<Coordinate>): seq<Query>
  {
    seq(LegCount(|locations|), i requires 0 <= i < LegCount(|locations|) =>
      Query(apiKey, locations[i], locations[i + 1]))
  }

  /** One iteration of the route loop: fetch traffic data for the pair and
      estimate the leg over the placeholder distance. A failed request or a
      null body makes the leg unavailable rather than failing the route; a
      delivered snapshot gives 10 km at 50 km/h (12 minutes) plus the
      predicted delay. */
  function PlanLeg<S>(transport: Transport<S>, apiKey: string, start: Coordinate,
                      end: Coordinate, predict: real -> real): (leg: Leg)
    ensures leg.from == start && leg.to == end
    ensures leg.estimatedTime.Unavailable? <==> !Delivers(transport, apiKey, start, end)
    ensures transport(apiKey, start, end).RequestError? ==> leg.estimatedTime == Unavailable
    ensures leg.estimatedTime.Minutes? ==> leg.estimatedTime.minutes == 12.0 + predict(10.0)
  {
    var trafficData := GetRealTimeTrafficData(transport, apiKey, start, end);
    Leg(start, end, EstimateTravelTime(PlaceholderDistance, trafficData, predict))
  }

  /** The route over `locations`, built as main.py builds it: the legs of
      all but the last stop, with the leg into the last stop appended. Leg
      `i` runs from stop `i` to stop `i + 1`. */
  function Legs<S>(locations: seq<Coordinate>, apiKey: string, transport: Transport<S>,
                   predict: real -> real): (route: seq<Leg>)
    decreases |locations|
    ensures |route| == LegCount(|locations|)
    ensures forall i :: 0 <= i < |route| ==>
              route[i].from == locations[i] && route[i].to == locations[i + 1]
    ensures forall i :: 0 <= i < |route| ==>
              route[i] == PlanLeg(transport, apiKey, locations[i], locations[i + 1], predict)
  {
    if |locations| < 2 then
      []
    else
      var n := |locations|;
      Legs(locations[..n - 1], apiKey, transport, predict)
        + [PlanLeg(transport, apiKey, locations[n - 2], locations[n - 1], predict)]
  }

  /** Estimate a route the way main.py's loop does. The provider is
      threaded through the loop, so the returned provider's log holds every
      request made: exactly one per consecutive pair, in input order, each
      for the same pair as the leg it produced. */
  method OptimizeRoute<S>(locations: seq<Coordinate>, apiKey: string, provider: Provider<S>,
                          predict: real -> real)
    returns (route: seq<Leg>, provider': Provider<S>)
    ensures route == Legs(locations, apiKey, provider.transport, predict)
    ensures provider'.transport == provider.transport
    ensures provider'.requests == provider.requests + ConsecutiveQueries(apiKey, locations)
    ensures forall i :: 0 <= i < |route| ==>
              provider'.requests[|provider.requests| + i] == Query(apiKey, route[i].from, route[i].to)
  {
    ghost var legs := Legs(locations, apiKey, provider.transport, predict);
    ghost var queries := ConsecutiveQueries(apiKey, locations);
    route := [];
    provider' := provider;
    var i := 0;
    while i < |locations| - 1
      invariant 0 <= i <= LegCount(|locations|)
      invariant route == legs[..i]
      invariant provider'.transport == provider.transport
      invariant provider'.requests == provider.requests + queries[..i]
    {
      var start := locations[i];
      var end := locations[i + 1];
      var distance := PlaceholderDistance;
      var (next, trafficData) := provider'.Fetch(apiKey, start, end);
      provider' := next;
      var estimatedTime := EstimateTravelTime(distance, trafficData, predict);
      route := route + [Leg(start, end, estimatedTime)];
      assert queries[..i + 1] == queries[..i] + [Query(apiKey, start, end)];
      assert legs[..i + 1] == legs[..i] + [Leg(start, end, estimatedTime)];
      i := i + 1;
    }
    assert queries[..i] == queries;
    assert route == legs;
  }

  /** Legs only ever get appended: the route over the first `k` stops is a
      prefix of the route over all of them. */
  lemma {:induction false} LegsPrefix<S>(locations: seq<Coordinate>, k: nat, apiKey: string,
                                         transport: Transport<S>, predict: real -> real)
    requires k <= |locations|
    ensures Legs(locations[..k], apiKey, transport, predict)
         == Legs(locations, apiKey, transport, predict)[..LegCount(k)]
    decreases |locations|
  {
    if k < |locations| {
      var n := |locations|;
      assert locations[..n - 1][..k] == locations[..k];
      LegsPrefix(locations[..n - 1], k, apiKey, transport, predict);
    } else {
      assert locations[..k] == locations;
    }
  }

  /** Consecutive legs connect: each leg ends where the next one starts, and
      the route as a whole runs from the first stop to the last. */
  lemma LegsChain<S>(locations: seq<Coordinate>, apiKey: string, transport: Transport<S>,
                     predict: real -> real)
    ensures var route := Legs(locations, apiKey, transport, predict);
            forall i :: 0 <= i < |route| - 1 ==> route[i].to == route[i + 1].from
    ensures var route := Legs(locations, apiKey, transport, predict);
            |route| > 0 ==> route[0].from == locations[0] && route[|route| - 1].to == locations[|locations| - 1]
  {
  }

  /** A route depends on the provider only through which pairs it delivered
      a snapshot for: two providers that deliver on the same pairs (whatever
      snapshots they deliver, and however they fail otherwise) give
      identical routes. In particular, repeating a call with the same
      provider gives the same route. */
  lemma {:induction false} RouteDependsOnlyOnAvailability<S>(locations: seq<Coordinate>, apiKey: string,
                                                             t1: Transport<S>, t2: Transport<S>,
                                                             predict: real -> real)
    requires forall i :: 0 <= i < |locations| - 1 ==>
               (Delivers(t1, apiKey, locations[i], locations[i + 1])
                <==> Delivers(t2, apiKey, locations[i], locations[i + 1]))
    ensures Legs(locations, apiKey, t1, predict) == Legs(locations, apiKey, t2, predict)
    decreases |locations|
  {
    if |locations| >= 2 {
      var n := |locations|;
      RouteDependsOnlyOnAvailability(locations[..n - 1], apiKey, t1, t2, predict);
      var a := PlanLeg(t1, apiKey, locations[n - 2], locations[n - 1], predict);
      var b := PlanLeg(t2, apiKey, locations[n - 2], locations[n - 1], predict);
      assert a.estimatedTime == b.estimatedTime;
    }
  }

  /** When no pair gets a snapshot (every request fails or returns a null
      body), every leg is unavailable, and there is still one leg per pair. */
  lemma NoTrafficData<S>(locations: seq<Coordinate>, apiKey: string, transport: Transport<S>,
                         predict: real -> real)
    requires forall i :: 0 <= i < |locations| - 1 ==>
               !Delivers(transport, apiKey, locations[i], locations[i + 1])
    ensures var route := Legs(locations, apiKey, transport, predict);
            |route| == LegCount(|locations|)
            && forall i :: 0 <= i < |route| ==> route[i].estimatedTime == Unavailable
  {
  }

  /** When every pair gets a snapshot, every leg is estimated at 12 minutes
      plus the delay predicted for 10 km. */
  lemma TrafficDataEverywhere<S>(locations: seq<Coordinate>, apiKey: string, transport: Transport<S>,
                                 predict: real -> real)
    requires forall i :: 0 <= i < |locations| - 1 ==>
               Delivers(transport, apiKey, locations[i], locations[i + 1])
    ensures var route := Legs(locations, apiKey, transport, predict);
            forall i :: 0 <= i < |route| ==> route[i].estimatedTime == Minutes(12.0 + predict(10.0))
  {
  }

  /** Three stops and a provider whose requests always fail: two legs, both
      unavailable, and two requests, in order. */
  method ThreeStopsNoTraffic<S>(a: Coordinate, b: Coordinate, c: Coordinate, apiKey: string,
                                provider: Provider<S>, predict: real -> real)
    returns (route: seq<Leg>, provider': Provider<S>)
    requires forall x, y :: provider.transport(apiKey, x, y).RequestError?
    ensures route == [Leg(a, b, Unavailable), Leg(b, c, Unavailable)]
    ensures provider'.requests == provider.requests + [Query(apiKey, a, b), Query(apiKey, b, c)]
  {
    route, provider' := OptimizeRoute([a, b, c], apiKey, provider, predict);
  }

  /** A single stop gives an empty route and makes no request. */
  method SingleStop<S>(a: Coordinate, apiKey: string, provider: Provider<S>,
                       predict: real -> real)
    returns (route: seq<Leg>, provider': Provider<S>)
    ensures route == [] && provider'.requests == provider.requests
  {
    route, provider' := OptimizeRoute([a], apiKey, provider, predict);
  }
}
