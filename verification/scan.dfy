/** The route-scan phase of a round: walk each queued route from its queued
    stop to the end of its path, riding the trip currently held and
    re-boarding whenever the previous round reaches the stop before that trip. */
module RouteScan {
  import opened Wrappers
  import opened Times
  import opened Collections
  import opened Network
  import opened Tables
  import opened RouteQueue

  /** The trip currently ridden and the path position it was boarded at. */
  datatype Held<S> = Held(trip: Trip<S>, boardingPoint: nat)

  /** Every stop of `route`'s path has an entry in `prev`. */
  predicate PathIn<R(==), S(==)>(P: Providers<R, S>, route: R, prev: Table<S>) {
    forall j :: 0 <= j < |P.routePath(route)| ==> P.routePath(route)[j] in prev
  }

  /** The state has exactly the stops of the previous round's table. */
  ghost predicate SameStops<S>(prev: Table<S>, st: RoundState<S>) {
    st.arrivals.Keys == prev.Keys && st.ledger.Keys == prev.Keys
  }

  /** The held trip, if any, was obtained in this scan, at a position in
      `[start, i)`, by querying the route with the previous round's arrival
      at the boarding stop. */
  ghost predicate HeldOk<R, S>(P: Providers<R, S>, route: R, prev: Table<S>, start: int, i: nat, held: Option<Held<S>>) {
    held.Some? ==>
      var bp := held.value.boardingPoint;
      start <= bp < i && bp < |P.routePath(route)| && P.routePath(route)[bp] in prev
      && P.earliestTrip(route, bp, prev[P.routePath(route)[bp]]) == Some(held.value.trip)
  }

  /** `c` is a ride on `route`, boarded at or after position `start` with the
      trip the previous round's arrival there allowed, alighting at `s` with
      arrival `arrival`. */
  ghost predicate BoardedOn<R, S>(P: Providers<R, S>, route: R, start: int, prev: Table<S>, s: S, arrival: Time, c: Conn<S>) {
    && c.Board?
    && start <= c.boardingPoint < c.stopIndex < |P.routePath(route)|
    && P.routePath(route)[c.stopIndex] == s
    && P.routePath(route)[c.boardingPoint] in prev
    && P.earliestTrip(route, c.boardingPoint, prev[P.routePath(route)[c.boardingPoint]]) == Some(c.trip)
    && c.stopIndex < |c.trip.stopTimes|
    && arrival == At(c.trip.stopTimes[c.stopIndex].arrival)
  }

  /** `s` is untouched from `st` to `r`, or round `k` lowered it by a ride on `route`. */
  ghost predicate ByRoute<R, S>(P: Providers<R, S>, k: nat, prev: Table<S>, route: R, start: int, st: RoundState<S>, r: RoundState<S>, s: S)
    requires SameStops(prev, st) && SameStops(prev, r) && s in prev
  {
    Unchanged(st, r, s)
    || (Before(r.arrivals[s], st.arrivals[s]) && k in r.ledger[s] && BoardedOn(P, route, start, prev, s, r.arrivals[s], r.ledger[s][k]))
  }

  /** At position `i`, alight from the held trip when it reaches the stop
      strictly before the best arrival known in this round. */
  function Alight<R(==, !new), S(==, !new)>(P: Providers<R, S>, k: nat, prev: Table<S>, route: R, start: int, i: nat,
                                            held: Option<Held<S>>, st: RoundState<S>): (r: RoundState<S>)
    requires TripsConsistent(P)
    requires SameStops(prev, st) && PathIn(P, route, prev)
    requires start <= i < |P.routePath(route)| && HeldOk(P, route, prev, start, i, held)
    ensures SameStops(prev, r) && Step(k, st, r)
    ensures forall s :: s in prev ==> ByRoute(P, k, prev, route, start, st, r, s)
    ensures forall s :: s in prev && s != P.routePath(route)[i] ==> Unchanged(st, r, s)
    ensures held.Some? ==> i < |held.value.trip.stopTimes|
    ensures held.Some? && Before(At(held.value.trip.stopTimes[i].arrival), st.arrivals[P.routePath(route)[i]]) ==>
      var s := P.routePath(route)[i];
      r.arrivals[s] == At(held.value.trip.stopTimes[i].arrival) && k in r.ledger[s]
      && r.ledger[s][k] == Board(held.value.trip, held.value.boardingPoint, i)
    ensures (held.None? || !Before(At(held.value.trip.stopTimes[i].arrival), st.arrivals[P.routePath(route)[i]])) ==> r == st
  {
    var s := P.routePath(route)[i];
    if held.Some? && Before(At(held.value.trip.stopTimes[i].arrival), st.arrivals[s]) then
      Improve(st, k, s, At(held.value.trip.stopTimes[i].arrival), Board(held.value.trip, held.value.boardingPoint, i))
    else st
  }

  /** At position `i`, catch the earliest trip the previous round allows when
      there is no held trip or the previous round reaches the stop strictly
      before the held trip does. */
  function Reboard<R(==, !new), S(==)>(P: Providers<R, S>, prev: Table<S>, route: R, start: int, i: nat, held: Option<Held<S>>): (h: Option<Held<S>>)
    requires TripsConsistent(P) && PathIn(P, route, prev)
    requires start <= i < |P.routePath(route)| && HeldOk(P, route, prev, start, i, held)
    ensures HeldOk(P, route, prev, start, i + 1, h)
    ensures h.Some? && h != held ==> h.value.boardingPoint == i
    ensures held.Some? ==> i < |held.value.trip.stopTimes|
    ensures held.Some? && !Before(prev[P.routePath(route)[i]], At(held.value.trip.stopTimes[i].arrival)) ==> h == held
    ensures held.None? || Before(prev[P.routePath(route)[i]], At(held.value.trip.stopTimes[i].arrival)) ==>
      var answer := P.earliestTrip(route, i, prev[P.routePath(route)[i]]);
      (h.None? <==> answer.None?) && (h.Some? ==> h.value == Held(answer.value, i))
  {
    var s := P.routePath(route)[i];
    if held.None? || Before(prev[s], At(held.value.trip.stopTimes[i].arrival)) then
      match P.earliestTrip(route, i, prev[s])
      case None => None
      case Some(t) => Some(Held(t, i))
    else held
  }

  lemma {:induction false} ByRouteTransitive<R, S(!new)>(P: Providers<R, S>, k: nat, prev: Table<S>, route: R, start: int,
                                                        a: RoundState<S>, b: RoundState<S>, c: RoundState<S>)
    requires SameStops(prev, a) && SameStops(prev, b) && SameStops(prev, c) && Step(k, a, b)
    requires forall s :: s in prev ==> ByRoute(P, k, prev, route, start, a, b, s)
    requires forall s :: s in prev ==> ByRoute(P, k, prev, route, start, b, c, s)
    ensures forall s :: s in prev ==> ByRoute(P, k, prev, route, start, a, c, s)
  {
    forall s | s in prev
      ensures ByRoute(P, k, prev, route, start, a, c, s)
    {
      assert ByRoute(P, k, prev, route, start, a, b, s);
      assert ByRoute(P, k, prev, route, start, b, c, s);
    }
  }

  /** Scan `route` from position `i` on, in round `k`. */
  function ScanRoute<R(==, !new), S(==, !new)>(P: Providers<R, S>, k: nat, prev: Table<S>, route: R, start: int, i: nat,
                                               held: Option<Held<S>>, st: RoundState<S>): (r: RoundState<S>)
    requires TripsConsistent(P)
    requires SameStops(prev, st) && PathIn(P, route, prev)
    requires start <= i && HeldOk(P, route, prev, start, i, held)
    ensures SameStops(prev, r) && Step(k, st, r)
    ensures forall s :: s in prev ==> ByRoute(P, k, prev, route, start, st, r, s)
    ensures RidesRelaxed(P, prev, route, start, i, held, r.arrivals)
    decreases |P.routePath(route)| - i
  {
    if i >= |P.routePath(route)| then st
    else
      var st1 := Alight(P, k, prev, route, start, i, held, st);
      var r := ScanRoute(P, k, prev, route, start, i + 1, Reboard(P, prev, route, start, i, held), st1);
      StepTransitive(k, st, st1, r);
      ByRouteTransitive(P, k, prev, route, start, st, st1, r);
      RidesRelaxedStep(P, prev, route, start, i, held, r.arrivals);
      r
  }

  /** Where the scan of the queued route `q.order[y]` begins: the position of
      its queued stop. */
  function StartOf<R(==), S(==)>(P: Providers<R, S>, q: Queue<R, S>, y: nat): int
    requires y < |q.order| && q.order[y] in q.stopOf
  {
    P.routeStopIndex(q.order[y], q.stopOf[q.order[y]])
  }

  /** Every queued route can be scanned: its queued stop has a position on its
      path and all its stops have an entry in `prev`. */
  ghost predicate Scannable<R, S>(P: Providers<R, S>, q: Queue<R, S>, prev: Table<S>) {
    forall y :: 0 <= y < |q.order| ==>
      q.order[y] in q.stopOf && 0 <= StartOf(P, q, y) && PathIn(P, q.order[y], prev)
  }

  /** Every stop is untouched from `st` to `r`, or round `k` lowered it by a
      ride on one of the queued routes `q.order[x..]`. */
  ghost predicate ByQueue<R, S>(P: Providers<R, S>, k: nat, prev: Table<S>, q: Queue<R, S>, x: nat, st: RoundState<S>, r: RoundState<S>)
    requires SameStops(prev, st) && SameStops(prev, r) && Scannable(P, q, prev)
  {
    forall s :: s in prev ==>
      Unchanged(st, r, s)
      || (Before(r.arrivals[s], st.arrivals[s]) && k in r.ledger[s]
          && exists y :: x <= y < |q.order| && BoardedOn(P, q.order[y], StartOf(P, q, y), prev, s, r.arrivals[s], r.ledger[s][k]))
  }

  /** When the queue can be scanned, no arrival of `after` is later than a
      ride on one of the queued routes `q.order[x..]` boarded from its queued
      stop on. */
  ghost predicate QueueRelaxed<R(!new), S>(P: Providers<R, S>, prev: Table<S>, q: Queue<R, S>, x: nat, after: Table<S>) {
    TripsConsistent(P) && Scannable(P, q, prev) ==>
      forall y :: x <= y < |q.order| ==> RidesRelaxed(P, prev, q.order[y], StartOf(P, q, y), StartOf(P, q, y), None, after)
  }

  /** Arrivals that only went down keep every queued ride relaxed. */
  lemma QueueRelaxedLower<R(!new), S(!new)>(P: Providers<R, S>, prev: Table<S>, q: Queue<R, S>, x: nat, a: Table<S>, b: Table<S>)
    requires TripsConsistent(P) && Scannable(P, q, prev)
    requires QueueRelaxed(P, prev, q, x, a)
    requires b.Keys == a.Keys && forall s :: s in a ==> NoLater(b[s], a[s])
    ensures QueueRelaxed(P, prev, q, x, b)
  {
    forall y | x <= y < |q.order|
      ensures RidesRelaxed(P, prev, q.order[y], StartOf(P, q, y), StartOf(P, q, y), None, b)
    {
      RidesRelaxedLower(P, prev, q.order[y], StartOf(P, q, y), StartOf(P, q, y), None, a, b);
    }
  }

  /** Scan the queued routes `q.order[x..]` in enumeration order. */
  function ScanQueue<R(==, !new), S(==, !new)>(P: Providers<R, S>, k: nat, prev: Table<S>, q: Queue<R, S>, x: nat,
                                               st: RoundState<S>): (r: RoundState<S>)
    requires TripsConsistent(P)
    requires SameStops(prev, st) && Scannable(P, q, prev) && x <= |q.order|
    ensures SameStops(prev, r) && Step(k, st, r)
    ensures ByQueue(P, k, prev, q, x, st, r)
    ensures QueueRelaxed(P, prev, q, x, r.arrivals)
    decreases |q.order| - x
  {
    if x == |q.order| then st
    else
      var start := StartOf(P, q, x);
      var st1 := ScanRoute(P, k, prev, q.order[x], start, start, None, st);
      var r := ScanQueue(P, k, prev, q, x + 1, st1);
      StepTransitive(k, st, st1, r);
      ByQueueStep(P, k, prev, q, x, st, st1, r);
      QueueRelaxedStep(P, prev, q, x, st1.arrivals, r.arrivals);
      r
  }

  lemma {:induction false} ByQueueStep<R, S(!new)>(P: Providers<R, S>, k: nat, prev: Table<S>, q: Queue<R, S>, x: nat,
                                                  st: RoundState<S>, st1: RoundState<S>, r: RoundState<S>)
    requires SameStops(prev, st) && SameStops(prev, st1) && SameStops(prev, r) && Scannable(P, q, prev)
    requires x < |q.order| && Step(k, st1, r)
    requires forall s :: s in prev ==> ByRoute(P, k, prev, q.order[x], StartOf(P, q, x), st, st1, s)
    requires ByQueue(P, k, prev, q, x + 1, st1, r)
    ensures ByQueue(P, k, prev, q, x, st, r)
  {
    forall s | s in prev
      ensures Unchanged(st, r, s)
        || (Before(r.arrivals[s], st.arrivals[s]) && k in r.ledger[s]
            && exists y :: x <= y < |q.order| && BoardedOn(P, q.order[y], StartOf(P, q, y), prev, s, r.arrivals[s], r.ledger[s][k]))
    {
      if !Unchanged(st1, r, s) {
        var y :| x + 1 <= y < |q.order| && BoardedOn(P, q.order[y], StartOf(P, q, y), prev, s, r.arrivals[s], r.ledger[s][k]);
        assert ByRoute(P, k, prev, q.order[x], StartOf(P, q, x), st, st1, s);
      } else if !Unchanged(st, st1, s) {
        assert ByRoute(P, k, prev, q.order[x], StartOf(P, q, x), st, st1, s);
        assert BoardedOn(P, q.order[x], StartOf(P, q, x), prev, s, r.arrivals[s], r.ledger[s][k]);
      }
    }
  }

  lemma {:induction false} QueueRelaxedStep<R(!new), S(!new)>(P: Providers<R, S>, prev: Table<S>, q: Queue<R, S>, x: nat,
                                                             a: Table<S>, b: Table<S>)
    requires TripsConsistent(P) && Scannable(P, q, prev) && x < |q.order|
    requires RidesRelaxed(P, prev, q.order[x], StartOf(P, q, x), StartOf(P, q, x), None, a)
    requires QueueRelaxed(P, prev, q, x + 1, b)
    requires b.Keys == a.Keys && forall s :: s in a ==> NoLater(b[s], a[s])
    ensures QueueRelaxed(P, prev, q, x, b)
  {
    RidesRelaxedLower(P, prev, q.order[x], StartOf(P, q, x), StartOf(P, q, x), None, a, b);
  }

  /** The trip the scan of `route` holds when it reaches position `j`, having
      been at position `i` holding `held`: each position in between re-boards
      by the rule of `Reboard`. */
  function HeldAt<R(==, !new), S(==)>(P: Providers<R, S>, prev: Table<S>, route: R, start: int, i: nat, held: Option<Held<S>>,
                                      j: nat): (h: Option<Held<S>>)
    requires TripsConsistent(P) && PathIn(P, route, prev)
    requires start <= i <= j && HeldOk(P, route, prev, start, i, held)
    ensures HeldOk(P, route, prev, start, j, h)
    decreases j - i
  {
    if i == j || i >= |P.routePath(route)| then held
    else HeldAt(P, prev, route, start, i + 1, Reboard(P, prev, route, start, i, held), j)
  }

  /** No arrival of `after` at a stop of `route` from position `i` on is
      later than the held trip's arrival there, for the trip the scan holds
      at that position. */
  ghost predicate RidesRelaxed<R(!new), S>(P: Providers<R, S>, prev: Table<S>, route: R, start: int, i: nat,
                                                   held: Option<Held<S>>, after: Table<S>)
    requires TripsConsistent(P) && PathIn(P, route, prev)
    requires start <= i && HeldOk(P, route, prev, start, i, held)
  {
    forall j :: i <= j < |P.routePath(route)| && HeldAt(P, prev, route, start, i, held, j).Some? && P.routePath(route)[j] in after ==>
      NoLater(after[P.routePath(route)[j]], At(HeldAt(P, prev, route, start, i, held, j).value.trip.stopTimes[j].arrival))
  }

  /** Arrivals that only went down keep every ride relaxed. */
  lemma RidesRelaxedLower<R(!new), S(!new)>(P: Providers<R, S>, prev: Table<S>, route: R, start: int, i: nat,
                                           held: Option<Held<S>>, a: Table<S>, b: Table<S>)
    requires TripsConsistent(P) && PathIn(P, route, prev)
    requires start <= i && HeldOk(P, route, prev, start, i, held)
    requires RidesRelaxed(P, prev, route, start, i, held, a)
    requires b.Keys == a.Keys && forall s :: s in a ==> NoLater(b[s], a[s])
    ensures RidesRelaxed(P, prev, route, start, i, held, b)
  {
  }

  /** Relaxing position `i` for the held trip, then every later position for
      the trip held after `i`, relaxes every position from `i` on. */
  lemma RidesRelaxedStep<R(!new), S(!new)>(P: Providers<R, S>, prev: Table<S>, route: R, start: int, i: nat,
                                          held: Option<Held<S>>, after: Table<S>)
    requires TripsConsistent(P) && PathIn(P, route, prev)
    requires start <= i < |P.routePath(route)| && HeldOk(P, route, prev, start, i, held)
    requires held.Some? && P.routePath(route)[i] in after ==>
      NoLater(after[P.routePath(route)[i]], At(held.value.trip.stopTimes[i].arrival))
    requires RidesRelaxed(P, prev, route, start, i + 1, Reboard(P, prev, route, start, i, held), after)
    ensures RidesRelaxed(P, prev, route, start, i, held, after)
  {
  }
}
