/** A six-stop network on which the journey walk as written meets a missing
    link, while the corrected walk rebuilds the journey.

    Stops: 0 is the origin O, 1 is R, 2 is Q0, 3 is P, 4 is Q1, 5 is the
    destination D. Route 0 runs O R Q0 P with one trip; route 1 runs
    Q1 Q0 P D with three trips (Fast, Slow, Late) that never overtake each
    other; one walk of one minute leads from R to Q1.

    Round 1 rides route 0 to R (1), Q0 (5) and P (7). Round 2 scans route 1
    from Q0 and keeps Slow at P, since P's previous arrival (7) is not
    strictly before Slow's (7): D is reached at 30; the walk reaches Q1 at 2.
    Round 3 scans route 1 from Q1 with Late, drops it at P for Fast, and
    reaches D at 10 with a ride boarded at P, which no round-2 link explains. */
module MissingLinkWitness {
  import opened Wrappers
  import opened Collections
  import opened Times
  import opened Network
  import opened Tables
  import opened RouteQueue
  import opened RouteScan
  import opened TransferRelax
  import opened Rounds
  import opened RoundDriver
  import opened Journeys
  import opened Raptor

  function Path(r: int): seq<int> {
    if r == 0 then [0, 1, 2, 3] else if r == 1 then [4, 2, 3, 5] else []
  }

  function RoutesAt(s: int): seq<int> {
    if s == 0 || s == 1 then [0] else if s == 2 || s == 3 then [0, 1] else if s == 4 || s == 5 then [1] else []
  }

  /** The first position of `s` in `path`, or -1. */
  function IndexIn(path: seq<int>, s: int): (i: int)
    ensures s in path ==> 0 <= i < |path| && path[i] == s
  {
    if path == [] then -1 else if path[0] == s then 0 else if s in path[1..] then 1 + IndexIn(path[1..], s) else -1
  }

  function Call(stop: int, arrival: int, departure: int): StopTime<int> {
    StopTime(stop, arrival, departure)
  }

  const TripA := Trip([Call(0, 0, 0), Call(1, 1, 1), Call(2, 5, 5), Call(3, 7, 7)])
  const Fast := Trip([Call(4, 0, 0), Call(2, 2, 3), Call(3, 6, 8), Call(5, 10, 10)])
  const Slow := Trip([Call(4, 1, 1), Call(2, 4, 5), Call(3, 7, 9), Call(5, 30, 30)])
  const Late := Trip([Call(4, 3, 3), Call(2, 5, 6), Call(3, 12, 12), Call(5, 40, 40)])

  function Trips(r: int): seq<Trip<int>> {
    if r == 0 then [TripA] else if r == 1 then [Fast, Slow, Late] else []
  }

  /** The first trip of `trips` not departing position `i` before `t`. */
  function FirstFrom(trips: seq<Trip<int>>, i: int, t: Time): (r: Option<Trip<int>>)
    ensures r.Some? ==> r.value in trips && 0 <= i < |r.value.stopTimes| && NoLater(t, At(r.value.stopTimes[i].departure))
  {
    if trips == [] then None
    else if 0 <= i < |trips[0].stopTimes| && NoLater(t, At(trips[0].stopTimes[i].departure)) then Some(trips[0])
    else FirstFrom(trips[1..], i, t)
  }

  function IndexOn(r: int, s: int): int { IndexIn(Path(r), s) }
  function BeforeOn(r: int, a: int, b: int): bool { IndexIn(Path(r), a) < IndexIn(Path(r), b) }
  function Earliest(r: int, i: int, t: Time): Option<Trip<int>> { FirstFrom(Trips(r), i, t) }
  function Walks(s: int): seq<TransferEdge<int>> { if s == 1 then [TransferEdge(1, 4, 1, 80)] else [] }

  const Net: Providers<int, int> := Providers([0, 1, 2, 3, 4, 5], RoutesAt, Path, IndexOn, BeforeOn, Earliest, Walks)

  /** Every stop on a path is one of the six stops. */
  lemma PathKnown(r: int)
    ensures forall j :: 0 <= j < |Path(r)| ==> Path(r)[j] in Net.stops
  {
  }

  lemma NetRoutes()
    ensures RoutesConsistent(Net)
  {
    forall s, r | s in Net.stops && r in Net.routesByStop(s)
      ensures Serves(Net, r, s) && forall j :: 0 <= j < |Net.routePath(r)| ==> Net.routePath(r)[j] in Net.stops
    {
      assert s in Path(r);
      assert Net.routePath(r) == Path(r) && Net.routeStopIndex(r, s) == IndexIn(Path(r), s);
      PathKnown(r);
    }
  }

  lemma NetTrips()
    ensures TripsConsistent(Net)
  {
    forall r, i, t | 0 <= i < |Net.routePath(r)| && Net.earliestTrip(r, i, t).Some?
      ensures Aligned(Net.earliestTrip(r, i, t).value, Net.routePath(r))
    {
      var x := FirstFrom(Trips(r), i, t).value;
      assert x in Trips(r);
      assert r == 0 || r == 1;
    }
  }

  lemma NetConsistent()
    ensures Consistent(Net)
  {
    NetRoutes();
    NetTrips();
    assert StopOrderConsistent(Net);
    assert TransfersConsistent(Net);
  }

  /** The trips the scans board. */
  lemma Boardings()
    ensures Net.earliestTrip(0, 0, At(0)) == Some(TripA)
    ensures Net.earliestTrip(0, 1, At(1)) == Some(TripA)
    ensures Net.earliestTrip(1, 1, At(5)) == Some(Slow)
    ensures Net.earliestTrip(1, 0, At(2)) == Some(Late)
    ensures Net.earliestTrip(1, 2, At(7)) == Some(Fast)
    ensures Net.earliestTrip(1, 3, At(10)) == Some(Fast)
  {
    assert Trips(1)[1..] == [Slow, Late];
    assert Trips(1)[1..][1..] == [Late];
  }

  /** The arrivals of `t` at the six stops, in stop order. */
  predicate Is(t: Table<int>, v: seq<Time>) {
    && |v| == 6
    && 0 in t && 1 in t && 2 in t && 3 in t && 4 in t && 5 in t
    && t[0] == v[0] && t[1] == v[1] && t[2] == v[2] && t[3] == v[3] && t[4] == v[4] && t[5] == v[5]
  }

  /** What the witness tracks of a round's state: the arrivals, the marked
      stops, and the links of P (3) and D (5). */
  predicate Holds(st: RoundState<int>, v: seq<Time>, marked: seq<int>, l3: map<nat, Conn<int>>, l5: map<nat, Conn<int>>) {
    Is(st.arrivals, v) && st.marked == marked && 3 in st.ledger && 5 in st.ledger && st.ledger[3] == l3 && st.ledger[5] == l5
  }

  /** Improving an unmarked stop strictly updates exactly what the witness tracks. */
  lemma ImproveHolds(st: RoundState<int>, k: nat, s: int, x: Time, c: Conn<int>,
                     v: seq<Time>, m: seq<int>, l3: map<nat, Conn<int>>, l5: map<nat, Conn<int>>)
    requires Holds(st, v, m, l3, l5) && 0 <= s < 6 && s in st.ledger && s !in m && Before(x, v[s])
    ensures Holds(Improve(st, k, s, x, c), v[s := x], m + [s], if s == 3 then l3[k := c] else l3, if s == 5 then l5[k := c] else l5)
  {
  }

  /** One position of a route scan: alight, then re-board. */
  lemma ScanStep<R(!new), S(!new)>(P: Providers<R, S>, k: nat, prev: Table<S>, route: R, start: int, i: nat,
                                   held: Option<Held<S>>, st: RoundState<S>)
    requires TripsConsistent(P) && SameStops(prev, st) && PathIn(P, route, prev)
    requires start <= i < |P.routePath(route)| && HeldOk(P, route, prev, start, i, held)
    ensures ScanRoute(P, k, prev, route, start, i, held, st)
         == ScanRoute(P, k, prev, route, start, i + 1, Reboard(P, prev, route, start, i, held), Alight(P, k, prev, route, start, i, held, st))
  {
  }

  lemma Ride1Moves0(prev: Table<int>, st: RoundState<int>)
    requires TripsConsistent(Net) && PathIn(Net, 0, prev) && SameStops(prev, st)
    requires Is(prev, [At(0), Infinity, Infinity, Infinity, Infinity, Infinity]) && HeldOk(Net, 0, prev, 0, 0, None)
    requires Is(st.arrivals, [At(0), Infinity, Infinity, Infinity, Infinity, Infinity])
    ensures Alight(Net, 1, prev, 0, 0, 0, None, st) == st
    ensures Reboard(Net, prev, 0, 0, 0, None) == Some(Held(TripA, 0))
  {
    assert Net.routePath(0) == Path(0);
    Boardings();
  }

  lemma Ride1Moves1(prev: Table<int>, st: RoundState<int>)
    requires TripsConsistent(Net) && PathIn(Net, 0, prev) && SameStops(prev, st)
    requires Is(prev, [At(0), Infinity, Infinity, Infinity, Infinity, Infinity]) && HeldOk(Net, 0, prev, 0, 1, Some(Held(TripA, 0)))
    requires Is(st.arrivals, [At(0), Infinity, Infinity, Infinity, Infinity, Infinity])
    ensures Alight(Net, 1, prev, 0, 0, 1, Some(Held(TripA, 0)), st) == Improve(st, 1, 1, At(1), Board(TripA, 0, 1))
    ensures Reboard(Net, prev, 0, 0, 1, Some(Held(TripA, 0))) == Some(Held(TripA, 0))
  {
    assert Net.routePath(0) == Path(0);
    assert TripA.stopTimes[1].arrival == 1;
    assert Before(At(1), st.arrivals[1]);
  }

  lemma Ride1Holds1(st: RoundState<int>)
    requires Holds(st, [At(0), Infinity, Infinity, Infinity, Infinity, Infinity], [], map[], map[]) && 1 in st.ledger
    ensures Holds(Improve(st, 1, 1, At(1), Board(TripA, 0, 1)), [At(0), At(1), Infinity, Infinity, Infinity, Infinity], [1], map[], map[])
  {
    ImproveHolds(st, 1, 1, At(1), Board(TripA, 0, 1), [At(0), Infinity, Infinity, Infinity, Infinity, Infinity], [], map[], map[]);
  }

  lemma Ride1Moves2(prev: Table<int>, st: RoundState<int>)
    requires TripsConsistent(Net) && PathIn(Net, 0, prev) && SameStops(prev, st)
    requires Is(prev, [At(0), Infinity, Infinity, Infinity, Infinity, Infinity]) && HeldOk(Net, 0, prev, 0, 2, Some(Held(TripA, 0)))
    requires Is(st.arrivals, [At(0), At(1), Infinity, Infinity, Infinity, Infinity])
    ensures Alight(Net, 1, prev, 0, 0, 2, Some(Held(TripA, 0)), st) == Improve(st, 1, 2, At(5), Board(TripA, 0, 2))
    ensures Reboard(Net, prev, 0, 0, 2, Some(Held(TripA, 0))) == Some(Held(TripA, 0))
  {
    assert Net.routePath(0) == Path(0);
    assert TripA.stopTimes[2].arrival == 5;
    assert Before(At(5), st.arrivals[2]);
  }

  lemma Ride1Holds2(st: RoundState<int>)
    requires Holds(st, [At(0), At(1), Infinity, Infinity, Infinity, Infinity], [1], map[], map[]) && 2 in st.ledger
    ensures Holds(Improve(st, 1, 2, At(5), Board(TripA, 0, 2)), [At(0), At(1), At(5), Infinity, Infinity, Infinity], [1, 2], map[], map[])
  {
    ImproveHolds(st, 1, 2, At(5), Board(TripA, 0, 2), [At(0), At(1), Infinity, Infinity, Infinity, Infinity], [1], map[], map[]);
  }

  lemma Ride1Moves3(prev: Table<int>, st: RoundState<int>)
    requires TripsConsistent(Net) && PathIn(Net, 0, prev) && SameStops(prev, st)
    requires Is(prev, [At(0), Infinity, Infinity, Infinity, Infinity, Infinity]) && HeldOk(Net, 0, prev, 0, 3, Some(Held(TripA, 0)))
    requires Is(st.arrivals, [At(0), At(1), At(5), Infinity, Infinity, Infinity])
    ensures Alight(Net, 1, prev, 0, 0, 3, Some(Held(TripA, 0)), st) == Improve(st, 1, 3, At(7), Board(TripA, 0, 3))
    ensures Reboard(Net, prev, 0, 0, 3, Some(Held(TripA, 0))) == Some(Held(TripA, 0))
  {
    assert Net.routePath(0) == Path(0);
    assert TripA.stopTimes[3].arrival == 7;
    assert Before(At(7), st.arrivals[3]);
  }

  lemma Ride1Holds3(st: RoundState<int>)
    requires Holds(st, [At(0), At(1), At(5), Infinity, Infinity, Infinity], [1, 2], map[], map[]) && 3 in st.ledger
    ensures Holds(Improve(st, 1, 3, At(7), Board(TripA, 0, 3)), [At(0), At(1), At(5), At(7), Infinity, Infinity], [1, 2, 3], map[1 := Board(TripA, 0, 3)], map[])
  {
    ImproveHolds(st, 1, 3, At(7), Board(TripA, 0, 3), [At(0), At(1), At(5), Infinity, Infinity, Infinity], [1, 2], map[], map[]);
  }

  lemma Ride1At0(prev: Table<int>, st: RoundState<int>)
    requires TripsConsistent(Net) && PathIn(Net, 0, prev) && SameStops(prev, st)
    requires Is(prev, [At(0), Infinity, Infinity, Infinity, Infinity, Infinity]) && HeldOk(Net, 0, prev, 0, 0, None)
    requires Holds(st, [At(0), Infinity, Infinity, Infinity, Infinity, Infinity], [], map[], map[])
    ensures Holds(ScanRoute(Net, 1, prev, 0, 0, 0, None, st), [At(0), At(1), At(5), At(7), Infinity, Infinity], [1, 2, 3], map[1 := Board(TripA, 0, 3)], map[])
  {
    Ride1Moves0(prev, st);
    Ride1At1(prev, Alight(Net, 1, prev, 0, 0, 0, None, st));
    ScanStep(Net, 1, prev, 0, 0, 0, None, st);
  }

  lemma Ride1At1(prev: Table<int>, st: RoundState<int>)
    requires TripsConsistent(Net) && PathIn(Net, 0, prev) && SameStops(prev, st)
    requires Is(prev, [At(0), Infinity, Infinity, Infinity, Infinity, Infinity]) && HeldOk(Net, 0, prev, 0, 1, Some(Held(TripA, 0)))
    requires Holds(st, [At(0), Infinity, Infinity, Infinity, Infinity, Infinity], [], map[], map[])
    ensures Holds(ScanRoute(Net, 1, prev, 0, 0, 1, Some(Held(TripA, 0)), st), [At(0), At(1), At(5), At(7), Infinity, Infinity], [1, 2, 3], map[1 := Board(TripA, 0, 3)], map[])
  {
    Ride1Moves1(prev, st);
    Ride1Holds1(st);
    Ride1At2(prev, Alight(Net, 1, prev, 0, 0, 1, Some(Held(TripA, 0)), st));
    ScanStep(Net, 1, prev, 0, 0, 1, Some(Held(TripA, 0)), st);
  }

  lemma Ride1At2(prev: Table<int>, st: RoundState<int>)
    requires TripsConsistent(Net) && PathIn(Net, 0, prev) && SameStops(prev, st)
    requires Is(prev, [At(0), Infinity, Infinity, Infinity, Infinity, Infinity]) && HeldOk(Net, 0, prev, 0, 2, Some(Held(TripA, 0)))
    requires Holds(st, [At(0), At(1), Infinity, Infinity, Infinity, Infinity], [1], map[], map[])
    ensures Holds(ScanRoute(Net, 1, prev, 0, 0, 2, Some(Held(TripA, 0)), st), [At(0), At(1), At(5), At(7), Infinity, Infinity], [1, 2, 3], map[1 := Board(TripA, 0, 3)], map[])
  {
    Ride1Moves2(prev, st);
    Ride1Holds2(st);
    Ride1At3(prev, Alight(Net, 1, prev, 0, 0, 2, Some(Held(TripA, 0)), st));
    ScanStep(Net, 1, prev, 0, 0, 2, Some(Held(TripA, 0)), st);
  }

  lemma Ride1At3(prev: Table<int>, st: RoundState<int>)
    requires TripsConsistent(Net) && PathIn(Net, 0, prev) && SameStops(prev, st)
    requires Is(prev, [At(0), Infinity, Infinity, Infinity, Infinity, Infinity]) && HeldOk(Net, 0, prev, 0, 3, Some(Held(TripA, 0)))
    requires Holds(st, [At(0), At(1), At(5), Infinity, Infinity, Infinity], [1, 2], map[], map[])
    ensures Holds(ScanRoute(Net, 1, prev, 0, 0, 3, Some(Held(TripA, 0)), st), [At(0), At(1), At(5), At(7), Infinity, Infinity], [1, 2, 3], map[1 := Board(TripA, 0, 3)], map[])
  {
    Ride1Moves3(prev, st);
    Ride1Holds3(st);
    assert ScanRoute(Net, 1, prev, 0, 0, 4, Some(Held(TripA, 0)), Alight(Net, 1, prev, 0, 0, 3, Some(Held(TripA, 0)), st)) == Alight(Net, 1, prev, 0, 0, 3, Some(Held(TripA, 0)), st);
    ScanStep(Net, 1, prev, 0, 0, 3, Some(Held(TripA, 0)), st);
  }

  lemma Ride2aMoves1(prev: Table<int>, st: RoundState<int>)
    requires TripsConsistent(Net) && PathIn(Net, 0, prev) && SameStops(prev, st)
    requires Is(prev, [At(0), At(1), At(5), At(7), Infinity, Infinity]) && HeldOk(Net, 0, prev, 1, 1, None)
    requires Is(st.arrivals, [At(0), At(1), At(5), At(7), Infinity, Infinity])
    ensures Alight(Net, 2, prev, 0, 1, 1, None, st) == st
    ensures Reboard(Net, prev, 0, 1, 1, None) == Some(Held(TripA, 1))
  {
    assert Net.routePath(0) == Path(0);
    Boardings();
  }

  lemma Ride2aMoves2(prev: Table<int>, st: RoundState<int>)
    requires TripsConsistent(Net) && PathIn(Net, 0, prev) && SameStops(prev, st)
    requires Is(prev, [At(0), At(1), At(5), At(7), Infinity, Infinity]) && HeldOk(Net, 0, prev, 1, 2, Some(Held(TripA, 1)))
    requires Is(st.arrivals, [At(0), At(1), At(5), At(7), Infinity, Infinity])
    ensures Alight(Net, 2, prev, 0, 1, 2, Some(Held(TripA, 1)), st) == st
    ensures Reboard(Net, prev, 0, 1, 2, Some(Held(TripA, 1))) == Some(Held(TripA, 1))
  {
    assert Net.routePath(0) == Path(0);
    assert TripA.stopTimes[2].arrival == 5;
  }

  lemma Ride2aMoves3(prev: Table<int>, st: RoundState<int>)
    requires TripsConsistent(Net) && PathIn(Net, 0, prev) && SameStops(prev, st)
    requires Is(prev, [At(0), At(1), At(5), At(7), Infinity, Infinity]) && HeldOk(Net, 0, prev, 1, 3, Some(Held(TripA, 1)))
    requires Is(st.arrivals, [At(0), At(1), At(5), At(7), Infinity, Infinity])
    ensures Alight(Net, 2, prev, 0, 1, 3, Some(Held(TripA, 1)), st) == st
    ensures Reboard(Net, prev, 0, 1, 3, Some(Held(TripA, 1))) == Some(Held(TripA, 1))
  {
    assert Net.routePath(0) == Path(0);
    assert TripA.stopTimes[3].arrival == 7;
  }

  lemma Ride2aAt1(prev: Table<int>, st: RoundState<int>)
    requires TripsConsistent(Net) && PathIn(Net, 0, prev) && SameStops(prev, st)
    requires Is(prev, [At(0), At(1), At(5), At(7), Infinity, Infinity]) && HeldOk(Net, 0, prev, 1, 1, None)
    requires Holds(st, [At(0), At(1), At(5), At(7), Infinity, Infinity], [], map[1 := Board(TripA, 0, 3)], map[])
    ensures Holds(ScanRoute(Net, 2, prev, 0, 1, 1, None, st), [At(0), At(1), At(5), At(7), Infinity, Infinity], [], map[1 := Board(TripA, 0, 3)], map[])
  {
    Ride2aMoves1(prev, st);
    Ride2aAt2(prev, Alight(Net, 2, prev, 0, 1, 1, None, st));
    ScanStep(Net, 2, prev, 0, 1, 1, None, st);
  }

  lemma Ride2aAt2(prev: Table<int>, st: RoundState<int>)
    requires TripsConsistent(Net) && PathIn(Net, 0, prev) && SameStops(prev, st)
    requires Is(prev, [At(0), At(1), At(5), At(7), Infinity, Infinity]) && HeldOk(Net, 0, prev, 1, 2, Some(Held(TripA, 1)))
    requires Holds(st, [At(0), At(1), At(5), At(7), Infinity, Infinity], [], map[1 := Board(TripA, 0, 3)], map[])
    ensures Holds(ScanRoute(Net, 2, prev, 0, 1, 2, Some(Held(TripA, 1)), st), [At(0), At(1), At(5), At(7), Infinity, Infinity], [], map[1 := Board(TripA, 0, 3)], map[])
  {
    Ride2aMoves2(prev, st);
    Ride2aAt3(prev, Alight(Net, 2, prev, 0, 1, 2, Some(Held(TripA, 1)), st));
    ScanStep(Net, 2, prev, 0, 1, 2, Some(Held(TripA, 1)), st);
  }

  lemma Ride2aAt3(prev: Table<int>, st: RoundState<int>)
    requires TripsConsistent(Net) && PathIn(Net, 0, prev) && SameStops(prev, st)
    requires Is(prev, [At(0), At(1), At(5), At(7), Infinity, Infinity]) && HeldOk(Net, 0, prev, 1, 3, Some(Held(TripA, 1)))
    requires Holds(st, [At(0), At(1), At(5), At(7), Infinity, Infinity], [], map[1 := Board(TripA, 0, 3)], map[])
    ensures Holds(ScanRoute(Net, 2, prev, 0, 1, 3, Some(Held(TripA, 1)), st), [At(0), At(1), At(5), At(7), Infinity, Infinity], [], map[1 := Board(TripA, 0, 3)], map[])
  {
    Ride2aMoves3(prev, st);
    assert ScanRoute(Net, 2, prev, 0, 1, 4, Some(Held(TripA, 1)), Alight(Net, 2, prev, 0, 1, 3, Some(Held(TripA, 1)), st)) == Alight(Net, 2, prev, 0, 1, 3, Some(Held(TripA, 1)), st);
    ScanStep(Net, 2, prev, 0, 1, 3, Some(Held(TripA, 1)), st);
  }

  lemma Ride2bMoves1(prev: Table<int>, st: RoundState<int>)
    requires TripsConsistent(Net) && PathIn(Net, 1, prev) && SameStops(prev, st)
    requires Is(prev, [At(0), At(1), At(5), At(7), Infinity, Infinity]) && HeldOk(Net, 1, prev, 1, 1, None)
    requires Is(st.arrivals, [At(0), At(1), At(5), At(7), Infinity, Infinity])
    ensures Alight(Net, 2, prev, 1, 1, 1, None, st) == st
    ensures Reboard(Net, prev, 1, 1, 1, None) == Some(Held(Slow, 1))
  {
    assert Net.routePath(1) == Path(1);
    Boardings();
  }

  lemma Ride2bMoves2(prev: Table<int>, st: RoundState<int>)
    requires TripsConsistent(Net) && PathIn(Net, 1, prev) && SameStops(prev, st)
    requires Is(prev, [At(0), At(1), At(5), At(7), Infinity, Infinity]) && HeldOk(Net, 1, prev, 1, 2, Some(Held(Slow, 1)))
    requires Is(st.arrivals, [At(0), At(1), At(5), At(7), Infinity, Infinity])
    ensures Alight(Net, 2, prev, 1, 1, 2, Some(Held(Slow, 1)), st) == st
    ensures Reboard(Net, prev, 1, 1, 2, Some(Held(Slow, 1))) == Some(Held(Slow, 1))
  {
    assert Net.routePath(1) == Path(1);
    assert Slow.stopTimes[2].arrival == 7;
  }

  lemma Ride2bMoves3(prev: Table<int>, st: RoundState<int>)
    requires TripsConsistent(Net) && PathIn(Net, 1, prev) && SameStops(prev, st)
    requires Is(prev, [At(0), At(1), At(5), At(7), Infinity, Infinity]) && HeldOk(Net, 1, prev, 1, 3, Some(Held(Slow, 1)))
    requires Is(st.arrivals, [At(0), At(1), At(5), At(7), Infinity, Infinity])
    ensures Alight(Net, 2, prev, 1, 1, 3, Some(Held(Slow, 1)), st) == Improve(st, 2, 5, At(30), Board(Slow, 1, 3))
    ensures Reboard(Net, prev, 1, 1, 3, Some(Held(Slow, 1))) == Some(Held(Slow, 1))
  {
    assert Net.routePath(1) == Path(1);
    assert Slow.stopTimes[3].arrival == 30;
    assert Before(At(30), st.arrivals[5]);
  }

  lemma Ride2bHolds3(st: RoundState<int>)
    requires Holds(st, [At(0), At(1), At(5), At(7), Infinity, Infinity], [], map[1 := Board(TripA, 0, 3)], map[]) && 5 in st.ledger
    ensures Holds(Improve(st, 2, 5, At(30), Board(Slow, 1, 3)), [At(0), At(1), At(5), At(7), Infinity, At(30)], [5], map[1 := Board(TripA, 0, 3)], map[2 := Board(Slow, 1, 3)])
  {
    ImproveHolds(st, 2, 5, At(30), Board(Slow, 1, 3), [At(0), At(1), At(5), At(7), Infinity, Infinity], [], map[1 := Board(TripA, 0, 3)], map[]);
  }

  lemma Ride2bAt1(prev: Table<int>, st: RoundState<int>)
    requires TripsConsistent(Net) && PathIn(Net, 1, prev) && SameStops(prev, st)
    requires Is(prev, [At(0), At(1), At(5), At(7), Infinity, Infinity]) && HeldOk(Net, 1, prev, 1, 1, None)
    requires Holds(st, [At(0), At(1), At(5), At(7), Infinity, Infinity], [], map[1 := Board(TripA, 0, 3)], map[])
    ensures Holds(ScanRoute(Net, 2, prev, 1, 1, 1, None, st), [At(0), At(1), At(5), At(7), Infinity, At(30)], [5], map[1 := Board(TripA, 0, 3)], map[2 := Board(Slow, 1, 3)])
  {
    Ride2bMoves1(prev, st);
    Ride2bAt2(prev, Alight(Net, 2, prev, 1, 1, 1, None, st));
    ScanStep(Net, 2, prev, 1, 1, 1, None, st);
  }

  lemma Ride2bAt2(prev: Table<int>, st: RoundState<int>)
    requires TripsConsistent(Net) && PathIn(Net, 1, prev) && SameStops(prev, st)
    requires Is(prev, [At(0), At(1), At(5), At(7), Infinity, Infinity]) && HeldOk(Net, 1, prev, 1, 2, Some(Held(Slow, 1)))
    requires Holds(st, [At(0), At(1), At(5), At(7), Infinity, Infinity], [], map[1 := Board(TripA, 0, 3)], map[])
    ensures Holds(ScanRoute(Net, 2, prev, 1, 1, 2, Some(Held(Slow, 1)), st), [At(0), At(1), At(5), At(7), Infinity, At(30)], [5], map[1 := Board(TripA, 0, 3)], map[2 := Board(Slow, 1, 3)])
  {
    Ride2bMoves2(prev, st);
    Ride2bAt3(prev, Alight(Net, 2, prev, 1, 1, 2, Some(Held(Slow, 1)), st));
    ScanStep(Net, 2, prev, 1, 1, 2, Some(Held(Slow, 1)), st);
  }

  lemma Ride2bAt3(prev: Table<int>, st: RoundState<int>)
    requires TripsConsistent(Net) && PathIn(Net, 1, prev) && SameStops(prev, st)
    requires Is(prev, [At(0), At(1), At(5), At(7), Infinity, Infinity]) && HeldOk(Net, 1, prev, 1, 3, Some(Held(Slow, 1)))
    requires Holds(st, [At(0), At(1), At(5), At(7), Infinity, Infinity], [], map[1 := Board(TripA, 0, 3)], map[])
    ensures Holds(ScanRoute(Net, 2, prev, 1, 1, 3, Some(Held(Slow, 1)), st), [At(0), At(1), At(5), At(7), Infinity, At(30)], [5], map[1 := Board(TripA, 0, 3)], map[2 := Board(Slow, 1, 3)])
  {
    Ride2bMoves3(prev, st);
    Ride2bHolds3(st);
    assert ScanRoute(Net, 2, prev, 1, 1, 4, Some(Held(Slow, 1)), Alight(Net, 2, prev, 1, 1, 3, Some(Held(Slow, 1)), st)) == Alight(Net, 2, prev, 1, 1, 3, Some(Held(Slow, 1)), st);
    ScanStep(Net, 2, prev, 1, 1, 3, Some(Held(Slow, 1)), st);
  }

  lemma Ride3Moves0(prev: Table<int>, st: RoundState<int>)
    requires TripsConsistent(Net) && PathIn(Net, 1, prev) && SameStops(prev, st)
    requires Is(prev, [At(0), At(1), At(5), At(7), At(2), At(30)]) && HeldOk(Net, 1, prev, 0, 0, None)
    requires Is(st.arrivals, [At(0), At(1), At(5), At(7), At(2), At(30)])
    ensures Alight(Net, 3, prev, 1, 0, 0, None, st) == st
    ensures Reboard(Net, prev, 1, 0, 0, None) == Some(Held(Late, 0))
  {
    assert Net.routePath(1) == Path(1);
    Boardings();
  }

  lemma Ride3Moves1(prev: Table<int>, st: RoundState<int>)
    requires TripsConsistent(Net) && PathIn(Net, 1, prev) && SameStops(prev, st)
    requires Is(prev, [At(0), At(1), At(5), At(7), At(2), At(30)]) && HeldOk(Net, 1, prev, 0, 1, Some(Held(Late, 0)))
    requires Is(st.arrivals, [At(0), At(1), At(5), At(7), At(2), At(30)])
    ensures Alight(Net, 3, prev, 1, 0, 1, Some(Held(Late, 0)), st) == st
    ensures Reboard(Net, prev, 1, 0, 1, Some(Held(Late, 0))) == Some(Held(Late, 0))
  {
    assert Net.routePath(1) == Path(1);
    assert Late.stopTimes[1].arrival == 5;
  }

  lemma Ride3Moves2(prev: Table<int>, st: RoundState<int>)
    requires TripsConsistent(Net) && PathIn(Net, 1, prev) && SameStops(prev, st)
    requires Is(prev, [At(0), At(1), At(5), At(7), At(2), At(30)]) && HeldOk(Net, 1, prev, 0, 2, Some(Held(Late, 0)))
    requires Is(st.arrivals, [At(0), At(1), At(5), At(7), At(2), At(30)])
    ensures Alight(Net, 3, prev, 1, 0, 2, Some(Held(Late, 0)), st) == st
    ensures Reboard(Net, prev, 1, 0, 2, Some(Held(Late, 0))) == Some(Held(Fast, 2))
  {
    assert Net.routePath(1) == Path(1);
    assert Late.stopTimes[2].arrival == 12;
    Boardings();
  }

  lemma Ride3Moves3(prev: Table<int>, st: RoundState<int>)
    requires TripsConsistent(Net) && PathIn(Net, 1, prev) && SameStops(prev, st)
    requires Is(prev, [At(0), At(1), At(5), At(7), At(2), At(30)]) && HeldOk(Net, 1, prev, 0, 3, Some(Held(Fast, 2)))
    requires Is(st.arrivals, [At(0), At(1), At(5), At(7), At(2), At(30)])
    ensures Alight(Net, 3, prev, 1, 0, 3, Some(Held(Fast, 2)), st) == Improve(st, 3, 5, At(10), Board(Fast, 2, 3))
    ensures Reboard(Net, prev, 1, 0, 3, Some(Held(Fast, 2))) == Some(Held(Fast, 2))
  {
    assert Net.routePath(1) == Path(1);
    assert Fast.stopTimes[3].arrival == 10;
    assert Before(At(10), st.arrivals[5]);
  }

  lemma Ride3Holds3(st: RoundState<int>)
    requires Holds(st, [At(0), At(1), At(5), At(7), At(2), At(30)], [], map[1 := Board(TripA, 0, 3)], map[2 := Board(Slow, 1, 3)]) && 5 in st.ledger
    ensures Holds(Improve(st, 3, 5, At(10), Board(Fast, 2, 3)), [At(0), At(1), At(5), At(7), At(2), At(10)], [5], map[1 := Board(TripA, 0, 3)], map[2 := Board(Slow, 1, 3), 3 := Board(Fast, 2, 3)])
  {
    ImproveHolds(st, 3, 5, At(10), Board(Fast, 2, 3), [At(0), At(1), At(5), At(7), At(2), At(30)], [], map[1 := Board(TripA, 0, 3)], map[2 := Board(Slow, 1, 3)]);
  }

  lemma Ride3At0(prev: Table<int>, st: RoundState<int>)
    requires TripsConsistent(Net) && PathIn(Net, 1, prev) && SameStops(prev, st)
    requires Is(prev, [At(0), At(1), At(5), At(7), At(2), At(30)]) && HeldOk(Net, 1, prev, 0, 0, None)
    requires Holds(st, [At(0), At(1), At(5), At(7), At(2), At(30)], [], map[1 := Board(TripA, 0, 3)], map[2 := Board(Slow, 1, 3)])
    ensures Holds(ScanRoute(Net, 3, prev, 1, 0, 0, None, st), [At(0), At(1), At(5), At(7), At(2), At(10)], [5], map[1 := Board(TripA, 0, 3)], map[2 := Board(Slow, 1, 3), 3 := Board(Fast, 2, 3)])
  {
    Ride3Moves0(prev, st);
    Ride3At1(prev, Alight(Net, 3, prev, 1, 0, 0, None, st));
    ScanStep(Net, 3, prev, 1, 0, 0, None, st);
  }

  lemma Ride3At1(prev: Table<int>, st: RoundState<int>)
    requires TripsConsistent(Net) && PathIn(Net, 1, prev) && SameStops(prev, st)
    requires Is(prev, [At(0), At(1), At(5), At(7), At(2), At(30)]) && HeldOk(Net, 1, prev, 0, 1, Some(Held(Late, 0)))
    requires Holds(st, [At(0), At(1), At(5), At(7), At(2), At(30)], [], map[1 := Board(TripA, 0, 3)], map[2 := Board(Slow, 1, 3)])
    ensures Holds(ScanRoute(Net, 3, prev, 1, 0, 1, Some(Held(Late, 0)), st), [At(0), At(1), At(5), At(7), At(2), At(10)], [5], map[1 := Board(TripA, 0, 3)], map[2 := Board(Slow, 1, 3), 3 := Board(Fast, 2, 3)])
  {
    Ride3Moves1(prev, st);
    Ride3At2(prev, Alight(Net, 3, prev, 1, 0, 1, Some(Held(Late, 0)), st));
    ScanStep(Net, 3, prev, 1, 0, 1, Some(Held(Late, 0)), st);
  }

  lemma Ride3At2(prev: Table<int>, st: RoundState<int>)
    requires TripsConsistent(Net) && PathIn(Net, 1, prev) && SameStops(prev, st)
    requires Is(prev, [At(0), At(1), At(5), At(7), At(2), At(30)]) && HeldOk(Net, 1, prev, 0, 2, Some(Held(Late, 0)))
    requires Holds(st, [At(0), At(1), At(5), At(7), At(2), At(30)], [], map[1 := Board(TripA, 0, 3)], map[2 := Board(Slow, 1, 3)])
    ensures Holds(ScanRoute(Net, 3, prev, 1, 0, 2, Some(Held(Late, 0)), st), [At(0), At(1), At(5), At(7), At(2), At(10)], [5], map[1 := Board(TripA, 0, 3)], map[2 := Board(Slow, 1, 3), 3 := Board(Fast, 2, 3)])
  {
    Ride3Moves2(prev, st);
    Ride3At3(prev, Alight(Net, 3, prev, 1, 0, 2, Some(Held(Late, 0)), st));
    ScanStep(Net, 3, prev, 1, 0, 2, Some(Held(Late, 0)), st);
  }

  lemma Ride3At3(prev: Table<int>, st: RoundState<int>)
    requires TripsConsistent(Net) && PathIn(Net, 1, prev) && SameStops(prev, st)
    requires Is(prev, [At(0), At(1), At(5), At(7), At(2), At(30)]) && HeldOk(Net, 1, prev, 0, 3, Some(Held(Fast, 2)))
    requires Holds(st, [At(0), At(1), At(5), At(7), At(2), At(30)], [], map[1 := Board(TripA, 0, 3)], map[2 := Board(Slow, 1, 3)])
    ensures Holds(ScanRoute(Net, 3, prev, 1, 0, 3, Some(Held(Fast, 2)), st), [At(0), At(1), At(5), At(7), At(2), At(10)], [5], map[1 := Board(TripA, 0, 3)], map[2 := Board(Slow, 1, 3), 3 := Board(Fast, 2, 3)])
  {
    Ride3Moves3(prev, st);
    Ride3Holds3(st);
    assert ScanRoute(Net, 3, prev, 1, 0, 4, Some(Held(Fast, 2)), Alight(Net, 3, prev, 1, 0, 3, Some(Held(Fast, 2)), st)) == Alight(Net, 3, prev, 1, 0, 3, Some(Held(Fast, 2)), st);
    ScanStep(Net, 3, prev, 1, 0, 3, Some(Held(Fast, 2)), st);
  }

  lemma Ride4Moves3(prev: Table<int>, st: RoundState<int>)
    requires TripsConsistent(Net) && PathIn(Net, 1, prev) && SameStops(prev, st)
    requires Is(prev, [At(0), At(1), At(5), At(7), At(2), At(10)]) && HeldOk(Net, 1, prev, 3, 3, None)
    requires Is(st.arrivals, [At(0), At(1), At(5), At(7), At(2), At(10)])
    ensures Alight(Net, 4, prev, 1, 3, 3, None, st) == st
    ensures Reboard(Net, prev, 1, 3, 3, None) == Some(Held(Fast, 3))
  {
    assert Net.routePath(1) == Path(1);
    Boardings();
  }

  lemma Ride4At3(prev: Table<int>, st: RoundState<int>)
    requires TripsConsistent(Net) && PathIn(Net, 1, prev) && SameStops(prev, st)
    requires Is(prev, [At(0), At(1), At(5), At(7), At(2), At(10)]) && HeldOk(Net, 1, prev, 3, 3, None)
    requires Holds(st, [At(0), At(1), At(5), At(7), At(2), At(10)], [], map[1 := Board(TripA, 0, 3)], map[2 := Board(Slow, 1, 3), 3 := Board(Fast, 2, 3)])
    ensures Holds(ScanRoute(Net, 4, prev, 1, 3, 3, None, st), [At(0), At(1), At(5), At(7), At(2), At(10)], [], map[1 := Board(TripA, 0, 3)], map[2 := Board(Slow, 1, 3), 3 := Board(Fast, 2, 3)])
  {
    Ride4Moves3(prev, st);
    assert ScanRoute(Net, 4, prev, 1, 3, 4, Some(Held(Fast, 3)), Alight(Net, 4, prev, 1, 3, 3, None, st)) == Alight(Net, 4, prev, 1, 3, 3, None, st);
    ScanStep(Net, 4, prev, 1, 3, 3, None, st);
  }

  /** Positions of stops along the two paths. */
  lemma Positions()
    ensures IndexIn(Path(0), 0) == 0 && IndexIn(Path(0), 1) == 1 && IndexIn(Path(0), 2) == 2 && IndexIn(Path(0), 3) == 3
    ensures IndexIn(Path(1), 4) == 0 && IndexIn(Path(1), 2) == 1 && IndexIn(Path(1), 3) == 2 && IndexIn(Path(1), 5) == 3
  {
    Positions0();
    Positions1();
  }

  lemma Positions0()
    ensures IndexIn(Path(0), 0) == 0 && IndexIn(Path(0), 1) == 1 && IndexIn(Path(0), 2) == 2 && IndexIn(Path(0), 3) == 3
  {
    assert Path(0)[1..] == [1, 2, 3] && Path(0)[1..][1..] == [2, 3] && Path(0)[1..][1..][1..] == [3];
  }

  lemma Positions1()
    ensures IndexIn(Path(1), 4) == 0 && IndexIn(Path(1), 2) == 1 && IndexIn(Path(1), 3) == 2 && IndexIn(Path(1), 5) == 3
  {
    assert Path(1)[1..] == [2, 3, 5] && Path(1)[1..][1..] == [3, 5] && Path(1)[1..][1..][1..] == [5];
  }


  const Empty: Queue<int, int> := Queue([], map[])

  lemma RoutesOf()
    ensures Net.routesByStop(0) == [0] && Net.routesByStop(1) == [0] && Net.routesByStop(2) == [0, 1]
    ensures Net.routesByStop(3) == [0, 1] && Net.routesByStop(4) == [1] && Net.routesByStop(5) == [1]
  {
  }

  lemma OrderOf()
    ensures !Net.isStopBefore(0, 2, 1) && !Net.isStopBefore(0, 3, 1) && !Net.isStopBefore(1, 3, 2) && Net.isStopBefore(1, 4, 5)
  {
    Positions();
  }

  lemma Glue<T>(a: T, b: T, c: T)
    ensures [a] + [] == [a] && [a] + [b] == [a, b] && [a] + [b, c] == [a, b, c]
  {
  }

  lemma Overwrite<K, V>(k: K, a: V, b: V)
    ensures map[k := a][k := b] == map[k := b]
  {
  }

  /** Offering `r` at `s` keeps the queue well formed and explained. */
  ghost predicate OfferKept<R(!new), S(!new)>(P: Providers<R, S>, q: Queue<R, S>, r: R, s: S) {
    WellFormed(Offer(P, q, r, s)) && Served(P, Offer(P, q, r, s))
  }

  /** Offering a route of a known stop keeps the queue well formed and explained. */
  lemma OfferKeeps<R(!new), S(!new)>(P: Providers<R, S>, q: Queue<R, S>, r: R, s: S)
    requires WellFormed(q) && Served(P, q) && s in P.stops && r in P.routesByStop(s)
    ensures OfferKept(P, q, r, s)
  {
  }

  /** Offering no stops leaves the queue as it is. */
  lemma StopsNone<R(!new), S(!new)>(P: Providers<R, S>, q: Queue<R, S>)
    requires StopOrderConsistent(P) && RoutesConsistent(P)
    requires WellFormed(q) && Served(P, q)
    ensures OfferStops(P, q, []) == q
  {
  }

  /** Offering the single route `r` at `s`. */
  lemma RoutesOne<R(!new), S(!new)>(P: Providers<R, S>, q: Queue<R, S>, s: S, r: R)
    requires StopOrderConsistent(P) && RoutesConsistent(P)
    requires WellFormed(q) && Served(P, q) && s in P.stops && r in P.routesByStop(s) && OfferKept(P, q, r, s)
    ensures OfferRoutes(P, q, s, [r]) == Offer(P, q, r, s)
  {
    assert [r][1..] == [];
    assert OfferRoutes(P, q, s, [r]) == OfferRoutes(P, Offer(P, q, r, s), s, []);
  }

  /** Offering the routes `r0` and `r1` at `s`. */
  lemma RoutesTwo<R(!new), S(!new)>(P: Providers<R, S>, q: Queue<R, S>, s: S, r0: R, r1: R)
    requires StopOrderConsistent(P) && RoutesConsistent(P)
    requires WellFormed(q) && Served(P, q) && s in P.stops && r0 in P.routesByStop(s) && r1 in P.routesByStop(s)
    requires OfferKept(P, q, r0, s) && OfferKept(P, Offer(P, q, r0, s), r1, s)
    ensures OfferRoutes(P, q, s, [r0, r1]) == Offer(P, Offer(P, q, r0, s), r1, s)
  {
    assert [r0, r1][1..] == [r1];
    assert OfferRoutes(P, q, s, [r0, r1]) == OfferRoutes(P, Offer(P, q, r0, s), s, [r1]);
    RoutesOne(P, Offer(P, q, r0, s), s, r1);
  }

  /** Offering a stop served by the single route `r`. */
  lemma StopsOne<R(!new), S(!new)>(P: Providers<R, S>, q: Queue<R, S>, s: S, r: R, rest: seq<S>, final: Queue<R, S>)
    requires StopOrderConsistent(P) && RoutesConsistent(P)
    requires WellFormed(q) && Served(P, q) && s in P.stops && P.routesByStop(s) == [r] && forall x :: x in rest ==> x in P.stops
    requires OfferKept(P, q, r, s) && OfferStops(P, Offer(P, q, r, s), rest) == final
    ensures OfferStops(P, q, [s] + rest) == final
  {
    RoutesOne(P, q, s, r);
    assert ([s] + rest)[1..] == rest;
    OfferStopsStep(P, q, [s] + rest, Offer(P, q, r, s));
  }

  /** Offering a stop served by the routes `r0` and `r1`. */
  lemma StopsTwo<R(!new), S(!new)>(P: Providers<R, S>, q: Queue<R, S>, s: S, r0: R, r1: R, rest: seq<S>, final: Queue<R, S>)
    requires StopOrderConsistent(P) && RoutesConsistent(P)
    requires WellFormed(q) && Served(P, q) && s in P.stops && P.routesByStop(s) == [r0, r1] && forall x :: x in rest ==> x in P.stops
    requires OfferKept(P, q, r0, s) && OfferKept(P, Offer(P, q, r0, s), r1, s)
    requires OfferStops(P, Offer(P, Offer(P, q, r0, s), r1, s), rest) == final
    ensures OfferStops(P, q, [s] + rest) == final
  {
    RoutesTwo(P, q, s, r0, r1);
    assert ([s] + rest)[1..] == rest;
    OfferStopsStep(P, q, [s] + rest, Offer(P, Offer(P, q, r0, s), r1, s));
  }

  /** One unfolding of `OfferStops`. */
  lemma OfferStopsStep<R(!new), S(!new)>(P: Providers<R, S>, q: Queue<R, S>, ms: seq<S>, q1: Queue<R, S>)
    requires StopOrderConsistent(P) && RoutesConsistent(P)
    requires WellFormed(q) && Served(P, q) && ms != [] && forall s :: s in ms ==> s in P.stops
    requires OfferRoutes(P, q, ms[0], P.routesByStop(ms[0])) == q1
    ensures WellFormed(q1) && Served(P, q1)
    ensures OfferStops(P, q, ms) == OfferStops(P, q1, ms[1..])
  {
  }

  /** The queue of a single marked stop served by a single route. */
  lemma QueueOne<R(!new), S(!new)>(P: Providers<R, S>, a: S, r: R)
    requires StopOrderConsistent(P) && RoutesConsistent(P)
    requires a in P.stops && P.routesByStop(a) == [r]
    ensures GetQueue(P, [a]) == Queue([r], map[r := a])
  {
    var e: Queue<R, S> := Queue([], map[]);
    var q1 := Queue([r], map[r := a]);
    OfferKeeps(P, e, r, a);
    assert Offer(P, e, r, a) == q1;
    StopsNone(P, q1);
    StopsOne(P, e, a, r, [], q1);
    Glue(a, a, a);
  }

  /** Two marked stops on one route; the later-marked one comes first. */
  lemma QueueTwo<R(!new), S(!new)>(P: Providers<R, S>, a: S, b: S, r: R)
    requires StopOrderConsistent(P) && RoutesConsistent(P)
    requires a in P.stops && b in P.stops && P.routesByStop(a) == [r] && P.routesByStop(b) == [r] && P.isStopBefore(r, b, a)
    ensures GetQueue(P, [a, b]) == Queue([r], map[r := b])
  {
    var e: Queue<R, S> := Queue([], map[]);
    var q1 := Queue([r], map[r := a]);
    var q2 := Queue([r], map[r := b]);
    OfferKeeps(P, e, r, a);
    assert Offer(P, e, r, a) == q1;
    OfferKeeps(P, q1, r, b);
    Overwrite(r, a, b);
    assert Offer(P, q1, r, b) == q2;
    StopsNone(P, q2);
    StopsOne(P, q1, b, r, [], q2);
    Glue(b, b, b);
    StopsOne(P, e, a, r, [b], q2);
    Glue(a, b, b);
  }

  /** The offers made while queueing three marked stops, as in `QueueThree`. */
  lemma ThreeOffers<R(!new), S(!new)>(P: Providers<R, S>, a: S, b: S, c: S, r0: R, r1: R)
    requires r0 != r1 && a in P.stops && b in P.stops && c in P.stops
    requires P.routesByStop(a) == [r0] && P.routesByStop(b) == [r0, r1] && P.routesByStop(c) == [r0, r1]
    requires !P.isStopBefore(r0, b, a) && !P.isStopBefore(r0, c, a) && !P.isStopBefore(r1, c, b)
    ensures Offer(P, Queue([], map[]), r0, a) == Queue([r0], map[r0 := a]) && OfferKept(P, Queue([], map[]), r0, a)
    ensures Offer(P, Queue([r0], map[r0 := a]), r0, b) == Queue([r0], map[r0 := a]) && OfferKept(P, Queue([r0], map[r0 := a]), r0, b)
    ensures Offer(P, Queue([r0], map[r0 := a]), r1, b) == Queue([r0, r1], map[r0 := a, r1 := b])
    ensures OfferKept(P, Queue([r0], map[r0 := a]), r1, b)
    ensures Offer(P, Queue([r0, r1], map[r0 := a, r1 := b]), r0, c) == Queue([r0, r1], map[r0 := a, r1 := b])
    ensures Offer(P, Queue([r0, r1], map[r0 := a, r1 := b]), r1, c) == Queue([r0, r1], map[r0 := a, r1 := b])
    ensures OfferKept(P, Queue([r0, r1], map[r0 := a, r1 := b]), r0, c) && OfferKept(P, Queue([r0, r1], map[r0 := a, r1 := b]), r1, c)
  {
    var e: Queue<R, S> := Queue([], map[]);
    var q1 := Queue([r0], map[r0 := a]);
    var q2 := Queue([r0, r1], map[r0 := a, r1 := b]);
    OfferKeeps(P, e, r0, a);
    OfferKeeps(P, q1, r0, b);
    OfferKeeps(P, q1, r1, b);
    OfferKeeps(P, q2, r0, c);
    OfferKeeps(P, q2, r1, c);
  }

  lemma QueueThreeLast<R(!new), S(!new)>(P: Providers<R, S>, a: S, b: S, c: S, r0: R, r1: R)
    requires StopOrderConsistent(P) && RoutesConsistent(P) && r0 != r1
    requires a in P.stops && b in P.stops && c in P.stops
    requires P.routesByStop(a) == [r0] && P.routesByStop(b) == [r0, r1] && P.routesByStop(c) == [r0, r1]
    requires !P.isStopBefore(r0, b, a) && !P.isStopBefore(r0, c, a) && !P.isStopBefore(r1, c, b)
    ensures WellFormed(Queue([r0, r1], map[r0 := a, r1 := b])) && Served(P, Queue([r0, r1], map[r0 := a, r1 := b]))
    ensures OfferStops(P, Queue([r0, r1], map[r0 := a, r1 := b]), [c]) == Queue([r0, r1], map[r0 := a, r1 := b])
  {
    var q2 := Queue([r0, r1], map[r0 := a, r1 := b]);
    ThreeOffers(P, a, b, c, r0, r1);
    StopsNone(P, q2);
    StopsTwo(P, q2, c, r0, r1, [], q2);
    Glue(c, c, c);
  }

  lemma QueueThreeRest<R(!new), S(!new)>(P: Providers<R, S>, a: S, b: S, c: S, r0: R, r1: R)
    requires StopOrderConsistent(P) && RoutesConsistent(P) && r0 != r1
    requires a in P.stops && b in P.stops && c in P.stops
    requires P.routesByStop(a) == [r0] && P.routesByStop(b) == [r0, r1] && P.routesByStop(c) == [r0, r1]
    requires !P.isStopBefore(r0, b, a) && !P.isStopBefore(r0, c, a) && !P.isStopBefore(r1, c, b)
    ensures WellFormed(Queue([r0], map[r0 := a])) && Served(P, Queue([r0], map[r0 := a]))
    ensures OfferStops(P, Queue([r0], map[r0 := a]), [b, c]) == Queue([r0, r1], map[r0 := a, r1 := b])
  {
    ThreeOffers(P, a, b, c, r0, r1);
    QueueThreeLast(P, a, b, c, r0, r1);
    StopsTwo(P, Queue([r0], map[r0 := a]), b, r0, r1, [c], Queue([r0, r1], map[r0 := a, r1 := b]));
    Glue(b, c, c);
  }

  /** Three marked stops: the first served by `r0`, the others by `r0` and
      `r1`, none of them earlier on a route than the stop it was queued at. */
  lemma QueueThree<R(!new), S(!new)>(P: Providers<R, S>, a: S, b: S, c: S, r0: R, r1: R)
    requires StopOrderConsistent(P) && RoutesConsistent(P) && r0 != r1
    requires a in P.stops && b in P.stops && c in P.stops
    requires P.routesByStop(a) == [r0] && P.routesByStop(b) == [r0, r1] && P.routesByStop(c) == [r0, r1]
    requires !P.isStopBefore(r0, b, a) && !P.isStopBefore(r0, c, a) && !P.isStopBefore(r1, c, b)
    ensures GetQueue(P, [a, b, c]) == Queue([r0, r1], map[r0 := a, r1 := b])
  {
    ThreeOffers(P, a, b, c, r0, r1);
    QueueThreeRest(P, a, b, c, r0, r1);
    StopsOne(P, Queue([], map[]), a, r0, [b, c], Queue([r0, r1], map[r0 := a, r1 := b]));
    Glue(a, b, c);
  }

  /** Scanning a queue of one route is scanning that route from its queued stop. */
  lemma ScanOne<R(!new), S(!new)>(P: Providers<R, S>, k: nat, prev: Table<S>, q: Queue<R, S>, st: RoundState<S>)
    requires TripsConsistent(P) && SameStops(prev, st) && Scannable(P, q, prev) && |q.order| == 1
    ensures ScanQueue(P, k, prev, q, 0, st) == ScanRoute(P, k, prev, q.order[0], StartOf(P, q, 0), StartOf(P, q, 0), None, st)
  {
    var st1 := ScanRoute(P, k, prev, q.order[0], StartOf(P, q, 0), StartOf(P, q, 0), None, st);
    assert ScanQueue(P, k, prev, q, 1, st1) == st1;
  }

  /** Scanning a queue of two routes scans the first, then the second. */
  lemma ScanTwo<R(!new), S(!new)>(P: Providers<R, S>, k: nat, prev: Table<S>, q: Queue<R, S>, st: RoundState<S>)
    requires TripsConsistent(P) && SameStops(prev, st) && Scannable(P, q, prev) && |q.order| == 2
    ensures var st1 := ScanRoute(P, k, prev, q.order[0], StartOf(P, q, 0), StartOf(P, q, 0), None, st);
            ScanQueue(P, k, prev, q, 0, st) == ScanRoute(P, k, prev, q.order[1], StartOf(P, q, 1), StartOf(P, q, 1), None, st1)
  {
    var st1 := ScanRoute(P, k, prev, q.order[0], StartOf(P, q, 0), StartOf(P, q, 0), None, st);
    var st2 := ScanRoute(P, k, prev, q.order[1], StartOf(P, q, 1), StartOf(P, q, 1), None, st1);
    assert ScanQueue(P, k, prev, q, 2, st2) == st2;
    assert ScanQueue(P, k, prev, q, 1, st1) == st2;
  }

  /** Relaxing from stops without transfers changes nothing. */
  lemma {:induction false} NoWalks<R(!new), S(!new)>(P: Providers<R, S>, k: nat, prev: Table<S>, frontier: seq<S>, st: RoundState<S>)
    requires forall o :: o in frontier ==> o in prev && prev[o].At? && P.transfersForStop(o) == []
    requires SameStops(prev, st)
    ensures RelaxFrontier(P, k, prev, frontier, st) == st
    decreases |frontier|
  {
    if frontier != [] {
      NoWalks(P, k, prev, frontier[1..], st);
    }
  }

  lemma WalksOf()
    ensures Net.transfersForStop(0) == [] && Net.transfersForStop(1) == [TransferEdge(1, 4, 1, 80)]
    ensures Net.transfersForStop(2) == [] && Net.transfersForStop(3) == [] && Net.transfersForStop(4) == [] && Net.transfersForStop(5) == []
  {
  }

  /** Both paths have all their stops in a table of the six stops. */
  lemma PathsIn(prev: Table<int>, v: seq<Time>)
    requires Is(prev, v)
    ensures PathIn(Net, 0, prev) && PathIn(Net, 1, prev)
  {
    assert Net.routePath(0) == [0, 1, 2, 3] && Net.routePath(1) == [4, 2, 3, 5];
  }

  /** A one-route queue whose stop lies on the route can be scanned. */
  lemma ScannableOne<R, S>(P: Providers<R, S>, q: Queue<R, S>, prev: Table<S>)
    requires |q.order| == 1 && q.order[0] in q.stopOf && 0 <= StartOf(P, q, 0) && PathIn(P, q.order[0], prev)
    ensures Scannable(P, q, prev)
  {
  }

  lemma ScannableTwo<R, S>(P: Providers<R, S>, q: Queue<R, S>, prev: Table<S>)
    requires |q.order| == 2 && q.order[0] in q.stopOf && q.order[1] in q.stopOf
    requires 0 <= StartOf(P, q, 0) && PathIn(P, q.order[0], prev) && 0 <= StartOf(P, q, 1) && PathIn(P, q.order[1], prev)
    ensures Scannable(P, q, prev)
  {
  }

  lemma Scan1(prev: Table<int>, L0: Ledger<int>)
    requires TripsConsistent(Net) && L0.Keys == prev.Keys
    requires Is(prev, [At(0), Infinity, Infinity, Infinity, Infinity, Infinity]) && 3 in L0 && 5 in L0 && L0[3] == map[] && L0[5] == map[]
    requires Scannable(Net, Queue([0], map[0 := 0]), prev)
    ensures SameStops(prev, ScanQueue(Net, 1, prev, Queue([0], map[0 := 0]), 0, RoundState(prev, L0, [])))
    ensures Holds(ScanQueue(Net, 1, prev, Queue([0], map[0 := 0]), 0, RoundState(prev, L0, [])),
                  [At(0), At(1), At(5), At(7), Infinity, Infinity], [1, 2, 3], map[1 := Board(TripA, 0, 3)], map[])
  {
    var q := Queue([0], map[0 := 0]);
    var st0 := RoundState(prev, L0, []);
    Positions();
    assert StartOf(Net, q, 0) == 0;
    PathsIn(prev, [At(0), Infinity, Infinity, Infinity, Infinity, Infinity]);
    ScanOne(Net, 1, prev, q, st0);
    Ride1At0(prev, st0);
  }

  /** Round 1 relaxes from the origin only, which has no transfers. */
  lemma Relax1(prev: Table<int>, st: RoundState<int>)
    requires SameStops(prev, st) && Is(prev, [At(0), Infinity, Infinity, Infinity, Infinity, Infinity])
    ensures RelaxFrontier(Net, 1, prev, [0], st) == st
  {
    WalksOf();
    NoWalks(Net, 1, prev, [0], st);
  }

  lemma Round1(prev: Table<int>, L0: Ledger<int>)
    requires Consistent(Net) && Ready(Net, 1, prev, [0], L0)
    requires Is(prev, [At(0), Infinity, Infinity, Infinity, Infinity, Infinity]) && 3 in L0 && 5 in L0 && L0[3] == map[] && L0[5] == map[]
    ensures Holds(Round(Net, 1, prev, [0], L0), [At(0), At(1), At(5), At(7), Infinity, Infinity], [1, 2, 3], map[1 := Board(TripA, 0, 3)], map[])
  {
    RoutesOf();
    QueueOne(Net, 0, 0);
    var q := Queue([0], map[0 := 0]);
    Positions();
    PathsIn(prev, [At(0), Infinity, Infinity, Infinity, Infinity, Infinity]);
    ScannableOne(Net, q, prev);
    Scan1(prev, L0);
    Relax1(prev, ScanQueue(Net, 1, prev, q, 0, RoundState(prev, L0, [])));
  }
  lemma Scan2(prev: Table<int>, L0: Ledger<int>)
    requires TripsConsistent(Net) && L0.Keys == prev.Keys
    requires Is(prev, [At(0), At(1), At(5), At(7), Infinity, Infinity]) && 3 in L0 && 5 in L0 && L0[3] == map[1 := Board(TripA, 0, 3)] && L0[5] == map[]
    requires Scannable(Net, Queue([0, 1], map[0 := 1, 1 := 2]), prev)
    ensures SameStops(prev, ScanQueue(Net, 2, prev, Queue([0, 1], map[0 := 1, 1 := 2]), 0, RoundState(prev, L0, [])))
    ensures Holds(ScanQueue(Net, 2, prev, Queue([0, 1], map[0 := 1, 1 := 2]), 0, RoundState(prev, L0, [])), [At(0), At(1), At(5), At(7), Infinity, At(30)], [5], map[1 := Board(TripA, 0, 3)], map[2 := Board(Slow, 1, 3)])
  {
    var q := Queue([0, 1], map[0 := 1, 1 := 2]);
    var st0 := RoundState(prev, L0, []);
    Positions();
    PathsIn(prev, [At(0), At(1), At(5), At(7), Infinity, Infinity]);
    assert StartOf(Net, q, 0) == 1 && StartOf(Net, q, 1) == 1;
    ScanTwo(Net, 2, prev, q, st0);
    Ride2aAt1(prev, st0);
    Ride2bAt1(prev, ScanRoute(Net, 2, prev, 0, 1, 1, None, st0));
  }

  /** Round 2 relaxes the walk from R to Q1. */
  lemma Walk2(prev: Table<int>, st: RoundState<int>)
    requires SameStops(prev, st) && Is(prev, [At(0), At(1), At(5), At(7), Infinity, Infinity])
    ensures RelaxEdges(2, prev, 1, [TransferEdge(1, 4, 1, 80)], st) == Improve(st, 2, 4, At(2), Transfer(1, 4, 1, 80))
  {
    assert [TransferEdge(1, 4, 1, 80)][1..] == [];
  }

  lemma Relax2Step(prev: Table<int>, st: RoundState<int>)
    requires SameStops(prev, st) && Is(prev, [At(0), At(1), At(5), At(7), Infinity, Infinity]) && 4 in st.ledger
    ensures RelaxFrontier(Net, 2, prev, [1, 2, 3], st) == Improve(st, 2, 4, At(2), Transfer(1, 4, 1, 80))
  {
    WalksOf();
    Walk2(prev, st);
    NoWalks(Net, 2, prev, [2, 3], Improve(st, 2, 4, At(2), Transfer(1, 4, 1, 80)));
    assert [1, 2, 3][1..] == [2, 3];
  }

  lemma Relax2Holds(st: RoundState<int>)
    requires Holds(st, [At(0), At(1), At(5), At(7), Infinity, At(30)], [5], map[1 := Board(TripA, 0, 3)], map[2 := Board(Slow, 1, 3)]) && 4 in st.ledger
    ensures Holds(Improve(st, 2, 4, At(2), Transfer(1, 4, 1, 80)), [At(0), At(1), At(5), At(7), At(2), At(30)], [5, 4], map[1 := Board(TripA, 0, 3)], map[2 := Board(Slow, 1, 3)])
  {
    ImproveHolds(st, 2, 4, At(2), Transfer(1, 4, 1, 80), [At(0), At(1), At(5), At(7), Infinity, At(30)], [5], map[1 := Board(TripA, 0, 3)], map[2 := Board(Slow, 1, 3)]);
  }

  lemma Relax2(prev: Table<int>, st: RoundState<int>)
    requires SameStops(prev, st) && Is(prev, [At(0), At(1), At(5), At(7), Infinity, Infinity])
    requires Holds(st, [At(0), At(1), At(5), At(7), Infinity, At(30)], [5], map[1 := Board(TripA, 0, 3)], map[2 := Board(Slow, 1, 3)])
    ensures Holds(RelaxFrontier(Net, 2, prev, [1, 2, 3], st), [At(0), At(1), At(5), At(7), At(2), At(30)], [5, 4], map[1 := Board(TripA, 0, 3)], map[2 := Board(Slow, 1, 3)])
  {
    Relax2Step(prev, st);
    Relax2Holds(st);
  }

  lemma Queued2(prev: Table<int>)
    requires StopOrderConsistent(Net) && RoutesConsistent(Net) && Is(prev, [At(0), At(1), At(5), At(7), Infinity, Infinity])
    ensures GetQueue(Net, [1, 2, 3]) == Queue([0, 1], map[0 := 1, 1 := 2]) && Scannable(Net, Queue([0, 1], map[0 := 1, 1 := 2]), prev)
  {
    RoutesOf();
    OrderOf();
    QueueThree(Net, 1, 2, 3, 0, 1);
    Positions();
    PathsIn(prev, [At(0), At(1), At(5), At(7), Infinity, Infinity]);
    ScannableTwo(Net, Queue([0, 1], map[0 := 1, 1 := 2]), prev);
  }

  lemma Round2(prev: Table<int>, L0: Ledger<int>)
    requires Consistent(Net) && Ready(Net, 2, prev, [1, 2, 3], L0)
    requires Is(prev, [At(0), At(1), At(5), At(7), Infinity, Infinity]) && 3 in L0 && 5 in L0 && L0[3] == map[1 := Board(TripA, 0, 3)] && L0[5] == map[]
    ensures Holds(Round(Net, 2, prev, [1, 2, 3], L0), [At(0), At(1), At(5), At(7), At(2), At(30)], [5, 4], map[1 := Board(TripA, 0, 3)], map[2 := Board(Slow, 1, 3)])
  {
    Queued2(prev);
    var q := Queue([0, 1], map[0 := 1, 1 := 2]);
    Scan2(prev, L0);
    Relax2(prev, ScanQueue(Net, 2, prev, q, 0, RoundState(prev, L0, [])));
  }

  lemma Scan3(prev: Table<int>, L0: Ledger<int>)
    requires TripsConsistent(Net) && L0.Keys == prev.Keys
    requires Is(prev, [At(0), At(1), At(5), At(7), At(2), At(30)]) && 3 in L0 && 5 in L0 && L0[3] == map[1 := Board(TripA, 0, 3)] && L0[5] == map[2 := Board(Slow, 1, 3)]
    requires Scannable(Net, Queue([1], map[1 := 4]), prev)
    ensures SameStops(prev, ScanQueue(Net, 3, prev, Queue([1], map[1 := 4]), 0, RoundState(prev, L0, [])))
    ensures Holds(ScanQueue(Net, 3, prev, Queue([1], map[1 := 4]), 0, RoundState(prev, L0, [])), [At(0), At(1), At(5), At(7), At(2), At(10)], [5], map[1 := Board(TripA, 0, 3)], map[2 := Board(Slow, 1, 3), 3 := Board(Fast, 2, 3)])
  {
    var q := Queue([1], map[1 := 4]);
    var st0 := RoundState(prev, L0, []);
    Positions();
    PathsIn(prev, [At(0), At(1), At(5), At(7), At(2), At(30)]);
    assert StartOf(Net, q, 0) == 0;
    ScanOne(Net, 3, prev, q, st0);
    Ride3At0(prev, st0);
  }

  lemma Relax3(prev: Table<int>, st: RoundState<int>)
    requires SameStops(prev, st) && Is(prev, [At(0), At(1), At(5), At(7), At(2), At(30)])
    ensures RelaxFrontier(Net, 3, prev, [5, 4], st) == st
  {
    WalksOf();
    NoWalks(Net, 3, prev, [5, 4], st);
  }

  lemma Queued3(prev: Table<int>)
    requires StopOrderConsistent(Net) && RoutesConsistent(Net) && Is(prev, [At(0), At(1), At(5), At(7), At(2), At(30)])
    ensures GetQueue(Net, [5, 4]) == Queue([1], map[1 := 4]) && Scannable(Net, Queue([1], map[1 := 4]), prev)
  {
    RoutesOf();
    OrderOf();
    QueueTwo(Net, 5, 4, 1);
    Positions();
    PathsIn(prev, [At(0), At(1), At(5), At(7), At(2), At(30)]);
    ScannableOne(Net, Queue([1], map[1 := 4]), prev);
  }

  /** Round 2 misses a two-ride arrival: TripA reaches P (stop 3) at minute
      7, the trip lookup at P for minute 7 answers Fast, and Fast reaches D
      (stop 5) at minute 10, while round 2 leaves D at minute 30. */
  lemma TwoRidesSooner()
    ensures TripA.stopTimes[3].stop == 3 && TripA.stopTimes[3].arrival == 7
    ensures Net.routePath(1)[2] == 3 && Net.earliestTrip(1, 2, At(7)) == Some(Fast)
    ensures Fast.stopTimes[3].stop == 5 && Fast.stopTimes[3].arrival == 10
  {
  }

  lemma Round3(prev: Table<int>, L0: Ledger<int>)
    requires Consistent(Net) && Ready(Net, 3, prev, [5, 4], L0)
    requires Is(prev, [At(0), At(1), At(5), At(7), At(2), At(30)]) && 3 in L0 && 5 in L0 && L0[3] == map[1 := Board(TripA, 0, 3)] && L0[5] == map[2 := Board(Slow, 1, 3)]
    ensures Holds(Round(Net, 3, prev, [5, 4], L0), [At(0), At(1), At(5), At(7), At(2), At(10)], [5], map[1 := Board(TripA, 0, 3)], map[2 := Board(Slow, 1, 3), 3 := Board(Fast, 2, 3)])
  {
    Queued3(prev);
    var q := Queue([1], map[1 := 4]);
    Scan3(prev, L0);
    Relax3(prev, ScanQueue(Net, 3, prev, q, 0, RoundState(prev, L0, [])));
  }

  lemma Scan4(prev: Table<int>, L0: Ledger<int>)
    requires TripsConsistent(Net) && L0.Keys == prev.Keys
    requires Is(prev, [At(0), At(1), At(5), At(7), At(2), At(10)]) && 3 in L0 && 5 in L0 && L0[3] == map[1 := Board(TripA, 0, 3)] && L0[5] == map[2 := Board(Slow, 1, 3), 3 := Board(Fast, 2, 3)]
    requires Scannable(Net, Queue([1], map[1 := 5]), prev)
    ensures SameStops(prev, ScanQueue(Net, 4, prev, Queue([1], map[1 := 5]), 0, RoundState(prev, L0, [])))
    ensures Holds(ScanQueue(Net, 4, prev, Queue([1], map[1 := 5]), 0, RoundState(prev, L0, [])), [At(0), At(1), At(5), At(7), At(2), At(10)], [], map[1 := Board(TripA, 0, 3)], map[2 := Board(Slow, 1, 3), 3 := Board(Fast, 2, 3)])
  {
    var q := Queue([1], map[1 := 5]);
    var st0 := RoundState(prev, L0, []);
    Positions();
    PathsIn(prev, [At(0), At(1), At(5), At(7), At(2), At(10)]);
    assert StartOf(Net, q, 0) == 3;
    ScanOne(Net, 4, prev, q, st0);
    Ride4At3(prev, st0);
  }

  lemma Relax4(prev: Table<int>, st: RoundState<int>)
    requires SameStops(prev, st) && Is(prev, [At(0), At(1), At(5), At(7), At(2), At(10)])
    ensures RelaxFrontier(Net, 4, prev, [5], st) == st
  {
    WalksOf();
    NoWalks(Net, 4, prev, [5], st);
  }

  lemma Queued4(prev: Table<int>)
    requires StopOrderConsistent(Net) && RoutesConsistent(Net) && Is(prev, [At(0), At(1), At(5), At(7), At(2), At(10)])
    ensures GetQueue(Net, [5]) == Queue([1], map[1 := 5]) && Scannable(Net, Queue([1], map[1 := 5]), prev)
  {
    RoutesOf();
    OrderOf();
    QueueOne(Net, 5, 1);
    Positions();
    PathsIn(prev, [At(0), At(1), At(5), At(7), At(2), At(10)]);
    ScannableOne(Net, Queue([1], map[1 := 5]), prev);
  }

  lemma Round4(prev: Table<int>, L0: Ledger<int>)
    requires Consistent(Net) && Ready(Net, 4, prev, [5], L0)
    requires Is(prev, [At(0), At(1), At(5), At(7), At(2), At(10)]) && 3 in L0 && 5 in L0 && L0[3] == map[1 := Board(TripA, 0, 3)] && L0[5] == map[2 := Board(Slow, 1, 3), 3 := Board(Fast, 2, 3)]
    ensures Holds(Round(Net, 4, prev, [5], L0), [At(0), At(1), At(5), At(7), At(2), At(10)], [], map[1 := Board(TripA, 0, 3)], map[2 := Board(Slow, 1, 3), 3 := Board(Fast, 2, 3)])
  {
    Queued4(prev);
    var q := Queue([1], map[1 := 5]);
    Scan4(prev, L0);
    Relax4(prev, ScanQueue(Net, 4, prev, q, 0, RoundState(prev, L0, [])));
  }

  /** The links of P (3) and D (5) in a ledger. */
  predicate Has(L: Ledger<int>, l3: map<nat, Conn<int>>, l5: map<nat, Conn<int>>) {
    3 in L && 5 in L && L[3] == l3 && L[5] == l5
  }

  /** A search that succeeded with the given links of P and D. */
  predicate Found(r: Result<Search<int>, PlanError<int>>, l3: map<nat, Conn<int>>, l5: map<nat, Conn<int>>) {
    r.Success? && Has(r.value.ledger, l3, l5)
  }

  /** `Run` stops as soon as the frontier is empty. */
  lemma RunDone<R(!new), S(!new)>(P: Providers<R, S>, origin: S, tables: seq<Table<S>>, ledger: Ledger<S>, fuel: nat)
    requires Consistent(P) && PlanInv(P, origin, tables, ledger, [])
    ensures Run(P, origin, tables, ledger, [], fuel) == Success(Search(tables, ledger))
  {
  }

  /** The table a round appends is the last one. */
  lemma Appended(tables: seq<Table<int>>, t: Table<int>, v: seq<Time>)
    requires Is(t, v)
    ensures Is((tables + [t])[|tables|], v)
  {
  }

  /** Round 4, from the state the first three rounds leave. */
  lemma Run4(tables: seq<Table<int>>, L: Ledger<int>)
    requires Consistent(Net) && PlanInv(Net, 0, tables, L, [5]) && |tables| == 4
    requires Is(tables[3], [At(0), At(1), At(5), At(7), At(2), At(10)]) && Has(L, map[1 := Board(TripA, 0, 3)], map[2 := Board(Slow, 1, 3), 3 := Board(Fast, 2, 3)])
    ensures Found(Run(Net, 0, tables, L, [5], 1), map[1 := Board(TripA, 0, 3)], map[2 := Board(Slow, 1, 3), 3 := Board(Fast, 2, 3)])
  {
    RunStep(Net, 0, tables, L, [5], 1, 4, tables[3]);
    Round4(tables[3], L);
    var st := Round(Net, 4, tables[3], [5], L);
    RunDone(Net, 0, tables + [st.arrivals], st.ledger, 0);
  }

  /** Rounds 3 and 4, from the state the first two rounds leave. */
  lemma Run3(tables: seq<Table<int>>, L: Ledger<int>)
    requires Consistent(Net) && PlanInv(Net, 0, tables, L, [5, 4]) && |tables| == 3
    requires Is(tables[2], [At(0), At(1), At(5), At(7), At(2), At(30)]) && Has(L, map[1 := Board(TripA, 0, 3)], map[2 := Board(Slow, 1, 3)])
    ensures Found(Run(Net, 0, tables, L, [5, 4], 2), map[1 := Board(TripA, 0, 3)], map[2 := Board(Slow, 1, 3), 3 := Board(Fast, 2, 3)])
  {
    RunStep(Net, 0, tables, L, [5, 4], 2, 3, tables[2]);
    Round3(tables[2], L);
    var st := Round(Net, 3, tables[2], [5, 4], L);
    Appended(tables, st.arrivals, [At(0), At(1), At(5), At(7), At(2), At(10)]);
    Run4(tables + [st.arrivals], st.ledger);
  }

  /** Rounds 2 to 4, from the state the first round leaves. */
  lemma Run2(tables: seq<Table<int>>, L: Ledger<int>)
    requires Consistent(Net) && PlanInv(Net, 0, tables, L, [1, 2, 3]) && |tables| == 2
    requires Is(tables[1], [At(0), At(1), At(5), At(7), Infinity, Infinity]) && Has(L, map[1 := Board(TripA, 0, 3)], map[])
    ensures Found(Run(Net, 0, tables, L, [1, 2, 3], 3), map[1 := Board(TripA, 0, 3)], map[2 := Board(Slow, 1, 3), 3 := Board(Fast, 2, 3)])
  {
    RunStep(Net, 0, tables, L, [1, 2, 3], 3, 2, tables[1]);
    Round2(tables[1], L);
    var st := Round(Net, 2, tables[1], [1, 2, 3], L);
    Appended(tables, st.arrivals, [At(0), At(1), At(5), At(7), At(2), At(30)]);
    Run3(tables + [st.arrivals], st.ledger);
  }

  /** Rounds 1 to 4, from round 0. */
  lemma Run1(tables: seq<Table<int>>, L: Ledger<int>)
    requires Consistent(Net) && PlanInv(Net, 0, tables, L, [0]) && |tables| == 1
    requires Is(tables[0], [At(0), Infinity, Infinity, Infinity, Infinity, Infinity]) && Has(L, map[], map[])
    ensures Found(Run(Net, 0, tables, L, [0], 4), map[1 := Board(TripA, 0, 3)], map[2 := Board(Slow, 1, 3), 3 := Board(Fast, 2, 3)])
  {
    RunStep(Net, 0, tables, L, [0], 4, 1, tables[0]);
    Round1(tables[0], L);
    var st := Round(Net, 1, tables[0], [0], L);
    Appended(tables, st.arrivals, [At(0), At(1), At(5), At(7), Infinity, Infinity]);
    Run2(tables + [st.arrivals], st.ledger);
  }

  /** Round 0 of the witness: only O (0) reached, and no links yet. */
  lemma Initial()
    ensures Is(CreateKArrivals(Net.stops, 0, 0), [At(0), Infinity, Infinity, Infinity, Infinity, Infinity])
    ensures Has(CreateKConnections(Net.stops), map[], map[])
  {
    var t0 := CreateKArrivals(Net.stops, 0, 0);
    var L0 := CreateKConnections(Net.stops);
    assert t0[1] == Infinity && t0[2] == Infinity && t0[3] == Infinity && t0[4] == Infinity && t0[5] == Infinity;
    assert L0[3].Keys == {} && L0[5].Keys == {};
  }

  /** Planning from O at minute 0 with four rounds links P and D as described above. */
  lemma Searched()
    requires Consistent(Net)
    ensures Found(SearchFrom(Net, 0, 0, 4), map[1 := Board(TripA, 0, 3)], map[2 := Board(Slow, 1, 3), 3 := Board(Fast, 2, 3)])
  {
    Start(Net, 0, 0);
    Initial();
    Run1([CreateKArrivals(Net.stops, 0, 0)], CreateKConnections(Net.stops));
  }

  /** On the ledger the search leaves, the walk as written looks P up at
      round 2 and finds no link there; the corrected walk takes P's round-1
      link and rebuilds the ride O to P on TripA, then P to D on Fast. */
  lemma BothWalks(L: Ledger<int>)
    requires Has(L, map[1 := Board(TripA, 0, 3)], map[2 := Board(Slow, 1, 3), 3 := Board(Fast, 2, 3)]) && 0 in L
    ensures Reconstruct(L, 5, 3) == Failure(MissingLink(3, 2))
    ensures TraceJourney(L, 5, 3) == Success(Journey([TimetableLeg(0, 3, TripA), TimetableLeg(3, 5, Fast)]))
  {
    assert Fast.stopTimes[2].stop == 3 && Fast.stopTimes[3].stop == 5;
    assert TripA.stopTimes[0].stop == 0 && TripA.stopTimes[3].stop == 3;
    assert BackwardLegs(L, 3, 2) == Failure(MissingLink(3, 2));
    assert LastLink(L[3], 2) == Some(1) && LastLink(L[5], 3) == Some(3);
    var a := TraceBack(L, 0, 0);
    assert a == Success([]);
    var b := TraceBack(L, 3, 2);
    assert b == Success([TimetableLeg(0, 3, TripA)] + a.value);
    var c := TraceBack(L, 5, 3);
    assert c == Success([TimetableLeg(3, 5, Fast)] + b.value);
    Glue(TimetableLeg(0, 3, TripA), TimetableLeg(0, 3, TripA), TimetableLeg(0, 3, TripA));
    Glue(TimetableLeg(3, 5, Fast), TimetableLeg(0, 3, TripA), TimetableLeg(0, 3, TripA));
    assert Reverse(c.value) == [TimetableLeg(0, 3, TripA), TimetableLeg(3, 5, Fast)];
  }

  /** Planning from O at minute 0 with four rounds succeeds, yet the journey
      of round 3 to D cannot be rebuilt by the walk as written, while the
      corrected walk rebuilds it. */
  lemma AsWrittenWalkFails()
    ensures Consistent(Net)
    ensures SearchFrom(Net, 0, 0, 4).Success?
    ensures var L := SearchFrom(Net, 0, 0, 4).value.ledger;
            && Reconstruct(L, 5, 3) == Failure(MissingLink(3, 2))
            && TraceJourney(L, 5, 3) == Success(Journey([TimetableLeg(0, 3, TripA), TimetableLeg(3, 5, Fast)]))
  {
    NetConsistent();
    Searched();
    var L := SearchFrom(Net, 0, 0, 4).value.ledger;
    assert 0 in Net.stops;
    BothWalks(L);
  }
}
