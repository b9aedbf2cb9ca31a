/** The per-round route queue: for every route serving a marked stop, the
    marked stop that comes first along that route. */
module RouteQueue {
  import opened Collections
  import opened Network

  /** A hash map from route to stop, with its enumeration order (first
      insertion first). */
  datatype Queue<R(==), S> = Queue(order: seq<R>, stopOf: map<R, S>)

  ghost predicate WellFormed<R(!new), S>(q: Queue<R, S>) {
    Distinct(q.order) && (forall r :: r in q.stopOf <==> r in q.order)
  }

  /** The queue entries that the providers can explain: each queued stop is a
      known stop served by its route. */
  ghost predicate Served<R, S>(P: Providers<R, S>, q: Queue<R, S>) {
    forall r :: r in q.stopOf ==> q.stopOf[r] in P.stops && r in P.routesByStop(q.stopOf[r])
  }

  /** Queue route `r` at stop `s` unless it is already queued at a stop that
      does not come after `s`. */
  function Offer<R(==), S(==)>(P: Providers<R, S>, q: Queue<R, S>, r: R, s: S): Queue<R, S> {
    if r !in q.stopOf then Queue(q.order + [r], q.stopOf[r := s])
    else if P.isStopBefore(r, s, q.stopOf[r]) then Queue(q.order, q.stopOf[r := s])
    else q
  }

  /** Offer every route of `rs` at the marked stop `s`. */
  function OfferRoutes<R(==, !new), S(==)>(P: Providers<R, S>, q: Queue<R, S>, s: S, rs: seq<R>): (r: Queue<R, S>)
    requires StopOrderConsistent(P) && RoutesConsistent(P)
    requires WellFormed(q) && Served(P, q)
    requires s in P.stops && forall x :: x in rs ==> x in P.routesByStop(s)
    ensures WellFormed(r) && Served(P, r)
    ensures forall x :: x in r.stopOf ==> (x in q.stopOf && r.stopOf[x] == q.stopOf[x]) || r.stopOf[x] == s
    ensures forall x :: x in q.stopOf ==> x in r.stopOf && P.routeStopIndex(x, r.stopOf[x]) <= P.routeStopIndex(x, q.stopOf[x])
    ensures forall x :: x in rs ==> x in r.stopOf && P.routeStopIndex(x, r.stopOf[x]) <= P.routeStopIndex(x, s)
    decreases |rs|
  {
    if rs == [] then q
    else
      var q1 := Offer(P, q, rs[0], s);
      assert rs[0] in q.stopOf ==> (P.isStopBefore(rs[0], s, q.stopOf[rs[0]]) <==> P.routeStopIndex(rs[0], s) < P.routeStopIndex(rs[0], q.stopOf[rs[0]]));
      OfferRoutes(P, q1, s, rs[1..])
  }

  /** Offer, for every marked stop of `ms` in turn, every route serving it. */
  function OfferStops<R(==, !new), S(==)>(P: Providers<R, S>, q: Queue<R, S>, ms: seq<S>): (r: Queue<R, S>)
    requires StopOrderConsistent(P) && RoutesConsistent(P)
    requires WellFormed(q) && Served(P, q)
    requires forall s :: s in ms ==> s in P.stops
    ensures WellFormed(r) && Served(P, r)
    ensures forall x :: x in r.stopOf ==> (x in q.stopOf && r.stopOf[x] == q.stopOf[x]) || r.stopOf[x] in ms
    ensures forall x :: x in q.stopOf ==> x in r.stopOf && P.routeStopIndex(x, r.stopOf[x]) <= P.routeStopIndex(x, q.stopOf[x])
    ensures forall s, x :: s in ms && x in P.routesByStop(s) ==> x in r.stopOf && P.routeStopIndex(x, r.stopOf[x]) <= P.routeStopIndex(x, s)
    decreases |ms|
  {
    if ms == [] then q
    else
      var q1 := OfferRoutes(P, q, ms[0], P.routesByStop(ms[0]));
      var r := OfferStops(P, q1, ms[1..]);
      forall s, x | s in ms && x in P.routesByStop(s)
        ensures x in r.stopOf && P.routeStopIndex(x, r.stopOf[x]) <= P.routeStopIndex(x, s)
      {
        if s != ms[0] {
          assert s in ms[1..];
        }
      }
      r
  }

  /** The queue of round `k` built from the stops marked in round `k - 1`. */
  function GetQueue<R(==, !new), S(==)>(P: Providers<R, S>, marked: seq<S>): (q: Queue<R, S>)
    requires StopOrderConsistent(P) && RoutesConsistent(P)
    requires forall s :: s in marked ==> s in P.stops
    ensures WellFormed(q)
    ensures forall r :: r in q.stopOf ==> q.stopOf[r] in marked && r in P.routesByStop(q.stopOf[r]) && Serves(P, r, q.stopOf[r])
    ensures forall s, r :: s in marked && r in P.routesByStop(s) ==> r in q.stopOf
    ensures forall s, r :: s in marked && r in P.routesByStop(s) ==> !P.isStopBefore(r, s, q.stopOf[r])
  {
    OfferStops(P, Queue([], map[]), marked)
  }
}
