# Smart-routes leg estimator, modelled in Dafny

This project models the route estimator of the smart-routes planner (`main.py`). Given stop coordinates, `optimize_route` walks each pair of consecutive stops in order. For each pair it does four things:

1. It takes a placeholder distance of 10 km.
2. It asks the live traffic provider (`get_real_time_traffic_data`) for a snapshot.
3. It calls `estimate_travel_time` to get an estimate.
4. It appends a `{from, to, estimated_time}` record to the route.

The estimate is the driving time at 50 km/h plus the delay predicted by a fitted model. If the provider returned no data, the estimate is instead the fixed message "Unable to estimate time due to lack of traffic data.". main.py never reorders stops, and neither does the model.

Modules:

- `Optional`: the `Option` type, which stands for Python's `None`.
- `Traffic`: coordinates and the provider. The HTTP round trip is a caller-supplied `Transport`. It returns either the decoded response body (`Fetched`) or the request exception (`RequestError`). The body may itself be JSON `null`. `GetRealTimeTrafficData` absorbs the exception into `None` and passes a body on unchanged. So a snapshot is present exactly when the service delivered a non-null body. A `Provider` pairs the transport with the log of requests made so far. Its `Fetch` answers one request and records it.
- `Estimator`: the tagged estimate `Minutes(real) | Unavailable`, plus `EstimateTravelTime` and the constants it uses: speed 50, 60 minutes per hour and a real-time factor of 1. It also covers how main.py returns the estimate as an untyped float-or-string value.
- `Planner`: the `Leg` record and the placeholder distance. It has the recursive route function `Legs` and the method `OptimizeRoute`, which follows main.py's loop. That method threads a `Provider` through the loop and returns it with its request log. The lemmas relate these members.

Parameters stand in for two collaborators. The fitted model's `predict` is an arbitrary `real -> real` function. The traffic service is an arbitrary `Transport` function.

## Model

| member | source | states |
|---|---|---|
| Traffic.GetRealTimeTrafficData | main.py:25-42 | a snapshot is present exactly when the service delivered a non-null body; a failed request gives an absent snapshot, never an error; a present snapshot is the delivered body unchanged |
| Estimator.EstimateTravelTime | main.py:44-63 | the estimate is unavailable exactly when traffic data is absent; otherwise it is 1.2 minutes per km plus the predicted delay for that distance |
| Estimator.SnapshotContentsIrrelevant | main.py:56-61 | any two present snapshots give the same numeric estimate for the same distance, because the real-time factor is a constant |
| Estimator.ToPyValue | main.py:53-63 | the returned value is a string exactly when the estimate is unavailable, and that string is the fixed message; otherwise it is the minutes as a number |
| Estimator.PyValueRoundTrip | main.py:53-63 | every estimate can be read back from the value main.py returns, so a number is never confused with the unavailable marker |
| Estimator.PyValueRoundTripBack | main.py:53-63 | every returned value that reads back as an estimate is exactly what that estimate is returned as |
| Planner.PlanLeg | main.py:75-89 | a leg runs from the pair's start to its end; it is unavailable exactly when the pair got no snapshot (a failed request or a null body); otherwise it is 12 minutes plus the delay predicted for 10 km |
| Planner.Legs | main.py:73-91 | a route over n stops has max(n-1, 0) legs, and leg i runs from stop i to stop i+1 with that pair's estimate |
| Planner.OptimizeRoute | main.py:65-91 | the loop yields exactly the route `Legs` describes; the provider's log grows by exactly one request per consecutive pair, in input order, each for the same pair as its leg |
| Planner.LegsPrefix | main.py:84-89 | legs are only appended: the route over the first k stops is a prefix of the route over all stops |
| Planner.LegsChain | main.py:74-76 | each leg ends where the next one starts, and the route runs from the first stop to the last |
| Planner.RouteDependsOnlyOnAvailability | main.py:78-82 | two providers that deliver a snapshot for the same pairs give identical routes, whatever the snapshots hold; in particular, the same provider gives the same route twice |
| Planner.NoTrafficData | main.py:80-89 | when no pair gets a snapshot, there is still one leg per pair and every leg is unavailable |
| Planner.TrafficDataEverywhere | main.py:78-82 | when every pair gets a snapshot, every leg is estimated at 12 minutes plus the delay predicted for 10 km |
| Planner.ThreeStopsNoTraffic | main.py:73-91 | three stops and an always-failing provider give two unavailable legs, A to B and B to C, and log two requests in that order |
| Planner.SingleStop | main.py:73-74 | a single stop gives an empty route and leaves the provider's log unchanged |

## Left out

- HTTP details of the provider (URL building, `requests.get`, `raise_for_status`, JSON decoding, printing the error; main.py:34-42): these are network I/O. They are represented only by the `Transport` parameter's outcome.
- Undecodable response bodies: `RequestError` includes a body that fails to decode. That holds for `requests` 2.27 and later, where `JSONDecodeError` is a `RequestException` and is caught at main.py:40. With older versions the `ValueError` escapes and aborts the whole route. The model does not cover that.
- Training the delay model (main.py:13-23): it is a call into scikit-learn's `LinearRegression` over floating point. `predict` is an uninterpreted parameter, so the hard-coded historical data and the least-squares fit are not modelled. main.py itself has no error path for training.
- Floating-point behaviour: distances and minutes are `real`, so rounding in `(distance / 50) * 60` is not modelled.
- `main`, the JSON printing and the catch-all exception handler (main.py:93-104): these are command-line and output plumbing.
- The Markdown prose around the code (main.py:1-3, main.py:107-114): it is not code.
- Planner.OptimizeRoute: the request log counts the requests made through `Provider.Fetch`, the only way the loop obtains a snapshot. `Transport` is a pure function, so the service itself cannot observe how often it is called.
- Provider non-determinism: `Transport` is a function, so a repeated stop pair gets the same answer each time it is queried within a route. A live service could answer such repeated queries differently.
- Leg records carry `from`, `to` and the estimate only, as the dictionaries in main.py do. The leg distance is not a field, because main.py does not store it.
