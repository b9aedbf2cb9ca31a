/** One round of the planner: build the route queue from the previous round's
    marked stops, scan the queued routes, then relax transfers from the same
    marked stops. */
module Rounds {
  import opened Wrappers
  import opened Times
  import opened Collections
  import opened Network
  import opened Tables
  import opened RouteQueue
  import opened RouteScan
  import opened TransferRelax

  /** The parent link `c` accounts for the arrival `arrival` at `s`: a ride
      whose trip reaches `s` at that instant, boarded at a stop the previous
      round had reached no later than the trip leaves it; or a walk of one of
      the origin's transfers started at the previous round's (real) arrival
      there. */
  ghost predicate Explains<R(!new), S>(P: Providers<R, S>, prev: Table<S>, s: S, arrival: Time, c: Conn<S>) {
    match c
    case Board(t, bp, si) =>
      && bp < si < |t.stopTimes|
      && t.stopTimes[si].stop == s
      && arrival == At(t.stopTimes[si].arrival)
      && t.stopTimes[bp].stop in prev
      && prev[t.stopTimes[bp].stop].At?
      && NoLater(prev[t.stopTimes[bp].stop], At(t.stopTimes[bp].departure))
    case Transfer(o, d, dur, dist) =>
      && d == s
      && o in prev && prev[o].At?
      && arrival == Plus(prev[o], dur)
      && HasEdge(P.transfersForStop(o), s, dur, dist)
  }

  /** What round `k` guarantees of its state `st`, given the previous round's
      table `prev`, its marked stops `frontier` and the ledger `L0` it started
      from: arrivals only went down; the ledger changed only at round `k`;
      a stop has a round-`k` link exactly when its arrival is strictly below
      the previous round's, and exactly then it is marked; every round-`k`
      link explains the arrival; every walk starts at a stop of `frontier`. */
  ghost predicate RoundInv<R(!new), S(!new)>(P: Providers<R, S>, k: nat, prev: Table<S>, frontier: seq<S>, L0: Ledger<S>, st: RoundState<S>) {
    && SameStops(prev, st) && L0.Keys == prev.Keys
    && (forall s :: s in prev ==> NoLater(st.arrivals[s], prev[s]))
    && (forall s :: s in prev ==> st.ledger[s] - {k} == L0[s] - {k})
    && (forall s :: s in prev ==> (k in st.ledger[s] <==> Before(st.arrivals[s], prev[s])))
    && (forall s :: s in st.marked <==> s in prev && k in st.ledger[s])
    && Distinct(st.marked)
    && (forall s :: s in prev && k in st.ledger[s] ==> Explains(P, prev, s, st.arrivals[s], st.ledger[s][k]))
    && (forall s :: s in prev && k in st.ledger[s] && st.ledger[s][k].Transfer? ==> st.ledger[s][k].origin in frontier)
  }

  /** Round `k` can start: the previous table covers the known stops, the
      ledger has a slot for each and no link of round `k` yet, and every
      marked stop was reached. */
  ghost predicate Ready<R, S(!new)>(P: Providers<R, S>, k: nat, prev: Table<S>, frontier: seq<S>, L0: Ledger<S>) {
    && (forall s :: s in prev <==> s in P.stops)
    && L0.Keys == prev.Keys
    && (forall s :: s in L0 ==> k !in L0[s])
    && (forall s :: s in frontier ==> s in prev && prev[s].At?)
  }

  /** Round `k`, given the previous round's table and marked stops. */
  function Round<R(==, !new), S(==, !new)>(P: Providers<R, S>, k: nat, prev: Table<S>, frontier: seq<S>, L0: Ledger<S>): (r: RoundState<S>)
    requires Consistent(P) && Ready(P, k, prev, frontier, L0)
    ensures RoundInv(P, k, prev, frontier, L0, r)
    ensures forall s :: s in prev && k in r.ledger[s] && r.ledger[s][k].Board? ==>
      var q := GetQueue(P, frontier);
      exists y :: 0 <= y < |q.order| && BoardedOn(P, q.order[y], StartOf(P, q, y), prev, s, r.arrivals[s], r.ledger[s][k])
    ensures QueueRelaxed(P, prev, GetQueue(P, frontier), 0, r.arrivals)
    ensures WalksRelaxed(P, prev, frontier, r.arrivals)
  {
    var q := GetQueue(P, frontier);
    QueueScannable(P, prev, frontier);
    var st0 := RoundState(prev, L0, []);
    var st1 := ScanQueue(P, k, prev, q, 0, st0);
    var st2 := RelaxFrontier(P, k, prev, frontier, st1);
    RoundCorrect(P, k, prev, frontier, L0, q, st0, st1, st2);
    QueueRelaxedLower(P, prev, q, 0, st1.arrivals, st2.arrivals);
    st2
  }

  /** The queue built from the marked stops can be scanned against the
      previous round's table. */
  lemma QueueScannable<R(!new), S(!new)>(P: Providers<R, S>, prev: Table<S>, frontier: seq<S>)
    requires Consistent(P) && (forall s :: s in prev <==> s in P.stops) && (forall s :: s in frontier ==> s in prev)
    ensures Scannable(P, GetQueue(P, frontier), prev)
  {
  }

  lemma RoundCorrect<R(!new), S(!new)>(P: Providers<R, S>, k: nat, prev: Table<S>, frontier: seq<S>, L0: Ledger<S>,
                                       q: Queue<R, S>, st0: RoundState<S>, st1: RoundState<S>, st2: RoundState<S>)
    requires TripsConsistent(P)
    requires st0 == RoundState(prev, L0, []) && L0.Keys == prev.Keys
    requires forall s :: s in L0 ==> k !in L0[s]
    requires Scannable(P, q, prev)
    requires SameStops(prev, st1) && Step(k, st0, st1)
    requires forall s :: s in prev ==>
      Unchanged(st0, st1, s)
      || (Before(st1.arrivals[s], st0.arrivals[s]) && k in st1.ledger[s]
          && exists y :: 0 <= y < |q.order| && BoardedOn(P, q.order[y], StartOf(P, q, y), prev, s, st1.arrivals[s], st1.ledger[s][k]))
    requires SameStops(prev, st2) && Step(k, st1, st2)
    requires forall s :: s in prev ==> FromFrontier(P, k, prev, frontier, st1, st2, s)
    ensures RoundInv(P, k, prev, frontier, L0, st2)
    ensures forall s :: s in prev && k in st2.ledger[s] && st2.ledger[s][k].Board? ==>
      exists y :: 0 <= y < |q.order| && BoardedOn(P, q.order[y], StartOf(P, q, y), prev, s, st2.arrivals[s], st2.ledger[s][k])
  {
    StepTransitive(k, st0, st1, st2);
    forall s | s in prev
      ensures (k in st2.ledger[s] <==> Before(st2.arrivals[s], prev[s]))
      ensures k in st2.ledger[s] ==> Explains(P, prev, s, st2.arrivals[s], st2.ledger[s][k])
      ensures k in st2.ledger[s] && st2.ledger[s][k].Transfer? ==> st2.ledger[s][k].origin in frontier
      ensures k in st2.ledger[s] && st2.ledger[s][k].Board? ==>
        exists y :: 0 <= y < |q.order| && BoardedOn(P, q.order[y], StartOf(P, q, y), prev, s, st2.arrivals[s], st2.ledger[s][k])
    {
      if !Unchanged(st1, st2, s) {
        var c := st2.ledger[s][k];
        assert c.Transfer? && c.origin in frontier;
      } else if !Unchanged(st0, st1, s) {
        var y :| 0 <= y < |q.order| && BoardedOn(P, q.order[y], StartOf(P, q, y), prev, s, st1.arrivals[s], st1.ledger[s][k]);
        var c := st2.ledger[s][k];
        var path := P.routePath(q.order[y]);
        assert Aligned(c.trip, path);
        assert c.trip.stopTimes[c.boardingPoint].stop == path[c.boardingPoint];
        assert P.earliestTrip(q.order[y], c.boardingPoint, prev[path[c.boardingPoint]]) == Some(c.trip);
      } else {
        assert k !in st2.ledger[s];
      }
    }
  }
}
