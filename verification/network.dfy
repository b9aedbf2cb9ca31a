/** The data-access layer the planner consults: stop, route, trip and transfer
    lookups. Their implementations are not part of this model; each lookup is a
    total function held in `Providers`, and the answers the planner relies on
    are stated by the consistency predicates below. */
module Network {
  import opened Wrappers
  import opened Times
  import opened Collections

  /** One scheduled call of a trip at a stop. */
  datatype StopTime<S> = StopTime(stop: S, arrival: int, departure: int)

  /** A scheduled run of a route: one stop time per position of the route's path. */
  datatype Trip<S> = Trip(stopTimes: seq<StopTime<S>>)

  /** A directed walking edge as the transfer lookup returns it. */
  datatype TransferEdge<S> = TransferEdge(origin: S, destination: S, duration: int, distance: int)

  datatype Providers<!R(==), !S(==)> = Providers(
    /** every stop of the network */
    stops: seq<S>,
    /** the routes that serve a stop */
    routesByStop: S -> seq<R>,
    /** the ordered stops of a route */
    routePath: R -> seq<S>,
    /** the position of a stop on a route's path */
    routeStopIndex: (R, S) -> int,
    /** whether the first stop comes strictly before the second on the route */
    isStopBefore: (R, S, S) -> bool,
    /** the earliest trip of the route at a path position not departing before
        the given instant, if any */
    earliestTrip: (R, int, Time) -> Option<Trip<S>>,
    /** the walking transfers leaving a stop */
    transfersForStop: S -> seq<TransferEdge<S>>
  )

  /** `trip` calls at the stops of `path`, position by position. */
  predicate Aligned<S(==)>(trip: Trip<S>, path: seq<S>) {
    |trip.stopTimes| == |path|
    && forall j :: 0 <= j < |path| ==> trip.stopTimes[j].stop == path[j]
  }

  /** `s` has a position on `r`'s path and `routeStopIndex` names it. */
  predicate Serves<R(==), S(==)>(P: Providers<R, S>, r: R, s: S) {
    0 <= P.routeStopIndex(r, s) < |P.routePath(r)|
    && P.routePath(r)[P.routeStopIndex(r, s)] == s
  }

  /** Every route serving a known stop has it on its path at the index the
      lookup reports, and all stops of its path are known stops. */
  ghost predicate RoutesConsistent<R, S>(P: Providers<R, S>) {
    forall s, r :: s in P.stops && r in P.routesByStop(s) ==>
      Serves(P, r, s)
      && forall j :: 0 <= j < |P.routePath(r)| ==> P.routePath(r)[j] in P.stops
  }

  /** `isStopBefore` is the strict order of path positions. */
  ghost predicate StopOrderConsistent<R, S>(P: Providers<R, S>) {
    forall r, a, b :: a in P.stops && b in P.stops && r in P.routesByStop(a) && r in P.routesByStop(b) ==>
      (P.isStopBefore(r, a, b) <==> P.routeStopIndex(r, a) < P.routeStopIndex(r, b))
  }

  /** A trip returned for a route position calls at the route's path and does
      not depart there before the requested instant. */
  ghost predicate TripsConsistent<R(!new), S>(P: Providers<R, S>) {
    forall r, i, t :: 0 <= i < |P.routePath(r)| && P.earliestTrip(r, i, t).Some? ==>
      Aligned(P.earliestTrip(r, i, t).value, P.routePath(r))
      && NoLater(t, At(P.earliestTrip(r, i, t).value.stopTimes[i].departure))
  }

  /** Transfers from a known stop lead to known stops. */
  ghost predicate TransfersConsistent<R, S>(P: Providers<R, S>) {
    forall s, e :: s in P.stops && e in P.transfersForStop(s) ==> e.destination in P.stops
  }

  ghost predicate Consistent<R(!new), S>(P: Providers<R, S>) {
    RoutesConsistent(P) && StopOrderConsistent(P) && TripsConsistent(P) && TransfersConsistent(P)
  }
}
