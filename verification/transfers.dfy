/** The transfer-relax phase of a round: from every stop marked in the
    previous round, walk each outgoing transfer, starting from the previous
    round's arrival at that stop. */
module TransferRelax {
  import opened Times
  import opened Collections
  import opened Network
  import opened Tables
  import opened RouteScan

  /** `c` is a walk from `o` to `s` along one of `edges`, and `arrival` is the
      previous round's arrival at `o` plus the walk's duration. */
  ghost predicate WalkedFrom<S>(o: S, edges: seq<TransferEdge<S>>, prev: Table<S>, s: S, arrival: Time, c: Conn<S>) {
    && c.Transfer? && c.origin == o && c.destination == s
    && o in prev && prev[o].At?
    && arrival == Plus(prev[o], c.duration)
    && HasEdge(edges, s, c.duration, c.distance)
  }

  /** Some edge of `edges` leads to `s` with this duration and distance. */
  predicate HasEdge<S(==)>(edges: seq<TransferEdge<S>>, s: S, duration: int, distance: int) {
    |edges| > 0
    && ((edges[0].destination == s && edges[0].duration == duration && edges[0].distance == distance)
        || HasEdge(edges[1..], s, duration, distance))
  }

  /** `s` is untouched from `st` to `r`, or round `k` lowered it by a walk
      from `o` along one of `edges`. */
  ghost predicate ByEdge<S>(k: nat, prev: Table<S>, o: S, edges: seq<TransferEdge<S>>, st: RoundState<S>, r: RoundState<S>, s: S)
    requires SameStops(prev, st) && SameStops(prev, r) && s in prev
  {
    Unchanged(st, r, s)
    || (Before(r.arrivals[s], st.arrivals[s]) && k in r.ledger[s] && WalkedFrom(o, edges, prev, s, r.arrivals[s], r.ledger[s][k]))
  }

  /** No arrival of `after` is later than walking any of `edges` from `o`,
      starting from the previous round's arrival there. */
  ghost predicate EdgesRelaxed<S>(prev: Table<S>, o: S, edges: seq<TransferEdge<S>>, after: Table<S>)
    requires o in prev && prev[o].At?
  {
    forall e :: e in edges ==> EdgeRelaxed(prev, o, e, after)
  }

  /** No arrival of `after` is later than walking `e` from `o`. */
  ghost predicate EdgeRelaxed<S>(prev: Table<S>, o: S, e: TransferEdge<S>, after: Table<S>)
    requires o in prev && prev[o].At?
  {
    e.destination in after ==> NoLater(after[e.destination], Plus(prev[o], e.duration))
  }

  /** Arrivals that only went down keep the walks relaxed. */
  lemma EdgesRelaxedLower<S>(prev: Table<S>, o: S, edges: seq<TransferEdge<S>>, a: Table<S>, b: Table<S>)
    requires o in prev && prev[o].At?
    requires EdgesRelaxed(prev, o, edges, a)
    requires b.Keys == a.Keys && forall s :: s in a ==> NoLater(b[s], a[s])
    ensures EdgesRelaxed(prev, o, edges, b)
  {
    forall e | e in edges
      ensures EdgeRelaxed(prev, o, e, b)
    {
      assert EdgeRelaxed(prev, o, e, a);
    }
  }

  lemma {:induction false} EdgesRelaxedCons<S>(prev: Table<S>, o: S, edges: seq<TransferEdge<S>>, after: Table<S>)
    requires o in prev && prev[o].At? && |edges| > 0
    requires edges[0].destination in after ==> NoLater(after[edges[0].destination], Plus(prev[o], edges[0].duration))
    requires EdgesRelaxed(prev, o, edges[1..], after)
    ensures EdgesRelaxed(prev, o, edges, after)
  {
    forall f | f in edges
      ensures EdgeRelaxed(prev, o, f, after)
    {
      if f != edges[0] {
        assert f in edges[1..];
      }
    }
  }

  /** Every stop is untouched from `st` to `r`, or round `k` lowered it by a
      walk from `o` along one of `edges`. */
  ghost predicate ByEdges<S>(k: nat, prev: Table<S>, o: S, edges: seq<TransferEdge<S>>, st: RoundState<S>, r: RoundState<S>)
    requires SameStops(prev, st) && SameStops(prev, r)
  {
    forall s :: s in prev ==> ByEdge(k, prev, o, edges, st, r, s)
  }

  /** Relax the transfers `edges` leaving `o` in round `k`. */
  function RelaxEdges<S(==, !new)>(k: nat, prev: Table<S>, o: S, edges: seq<TransferEdge<S>>, st: RoundState<S>): (r: RoundState<S>)
    requires o in prev && prev[o].At?
    requires SameStops(prev, st)
    requires forall e :: e in edges ==> e.destination in prev
    ensures SameStops(prev, r) && Step(k, st, r)
    ensures ByEdges(k, prev, o, edges, st, r)
    ensures EdgesRelaxed(prev, o, edges, r.arrivals)
    decreases |edges|
  {
    if edges == [] then st
    else
      var e := edges[0];
      var st1 := Improve(st, k, e.destination, Plus(prev[o], e.duration), Transfer(o, e.destination, e.duration, e.distance));
      var r := RelaxEdges(k, prev, o, edges[1..], st1);
      StepTransitive(k, st, st1, r);
      RelaxEdgesStep(k, prev, o, edges, st, r);
      r
  }

  /** Relaxing the first edge and then the rest explains every change and
      relaxes every edge. */
  lemma {:induction false} RelaxEdgesStep<S(!new)>(k: nat, prev: Table<S>, o: S, edges: seq<TransferEdge<S>>, st: RoundState<S>, r: RoundState<S>)
    requires o in prev && prev[o].At? && SameStops(prev, st) && |edges| > 0 && edges[0].destination in prev
    requires var e := edges[0];
      var st1 := Improve(st, k, e.destination, Plus(prev[o], e.duration), Transfer(o, e.destination, e.duration, e.distance));
      SameStops(prev, st1) && SameStops(prev, r) && Step(k, st1, r)
      && ByEdges(k, prev, o, edges[1..], st1, r) && EdgesRelaxed(prev, o, edges[1..], r.arrivals)
    ensures SameStops(prev, r) && ByEdges(k, prev, o, edges, st, r) && EdgesRelaxed(prev, o, edges, r.arrivals)
  {
    var e := edges[0];
    var arrival := Plus(prev[o], e.duration);
    var st1 := Improve(st, k, e.destination, arrival, Transfer(o, e.destination, e.duration, e.distance));
    forall s | s in prev
      ensures ByEdge(k, prev, o, edges, st, r, s)
    {
      assert ByEdge(k, prev, o, edges[1..], st1, r, s);
      if !Unchanged(st1, r, s) {
        assert HasEdge(edges, s, r.ledger[s][k].duration, r.ledger[s][k].distance);
      } else if !Unchanged(st, st1, s) {
        assert HasEdge(edges, s, e.duration, e.distance);
      }
    }
    assert NoLater(st1.arrivals[e.destination], arrival);
    EdgesRelaxedCons(prev, o, edges, r.arrivals);
  }

  /** `s` is untouched from `st` to `r`, or round `k` lowered it by a walk
      from a stop of `frontier` along one of that stop's transfers. */
  ghost predicate FromFrontier<R, S>(P: Providers<R, S>, k: nat, prev: Table<S>, frontier: seq<S>, st: RoundState<S>, r: RoundState<S>, s: S)
    requires SameStops(prev, st) && SameStops(prev, r) && s in prev
  {
    Unchanged(st, r, s)
    || (Before(r.arrivals[s], st.arrivals[s]) && k in r.ledger[s]
        && r.ledger[s][k].Transfer? && r.ledger[s][k].origin in frontier
        && WalkedFrom(r.ledger[s][k].origin, P.transfersForStop(r.ledger[s][k].origin), prev, s, r.arrivals[s], r.ledger[s][k]))
  }

  /** Every stop is untouched from `st` to `r`, or round `k` lowered it by a
      walk from a stop of `frontier`. */
  ghost predicate ByFrontier<R, S>(P: Providers<R, S>, k: nat, prev: Table<S>, frontier: seq<S>, st: RoundState<S>, r: RoundState<S>)
    requires SameStops(prev, st) && SameStops(prev, r)
  {
    forall s :: s in prev ==> FromFrontier(P, k, prev, frontier, st, r, s)
  }

  /** No arrival of `after` is later than walking any transfer of a stop of
      `frontier`, starting from the previous round's arrival there. */
  ghost predicate WalksRelaxed<R, S>(P: Providers<R, S>, prev: Table<S>, frontier: seq<S>, after: Table<S>) {
    forall o :: o in frontier ==> StopRelaxed(P, prev, o, after)
  }

  /** No arrival of `after` is later than walking a transfer of `o`, when the
      previous table `prev` reached `o`. */
  ghost predicate StopRelaxed<R, S>(P: Providers<R, S>, prev: Table<S>, o: S, after: Table<S>) {
    o in prev && prev[o].At? ==> EdgesRelaxed(prev, o, P.transfersForStop(o), after)
  }

  /** Relax the transfers of every stop of `frontier`, in enumeration order. */
  function RelaxFrontier<R(==), S(==, !new)>(P: Providers<R, S>, k: nat, prev: Table<S>, frontier: seq<S>, st: RoundState<S>): (r: RoundState<S>)
    requires forall o :: o in frontier ==> o in prev && prev[o].At?
    requires SameStops(prev, st)
    requires forall o, e :: o in frontier && e in P.transfersForStop(o) ==> e.destination in prev
    ensures SameStops(prev, r) && Step(k, st, r)
    ensures ByFrontier(P, k, prev, frontier, st, r)
    ensures WalksRelaxed(P, prev, frontier, r.arrivals)
    decreases |frontier|
  {
    if frontier == [] then st
    else
      var o := frontier[0];
      var st1 := RelaxEdges(k, prev, o, P.transfersForStop(o), st);
      var r := RelaxFrontier(P, k, prev, frontier[1..], st1);
      StepTransitive(k, st, st1, r);
      RelaxFrontierStep(P, k, prev, frontier, st, st1, r);
      r
  }

  /** Relaxing the first stop's transfers and then the rest explains every
      change and relaxes every transfer of the frontier. */
  lemma {:induction false} RelaxFrontierStep<R, S(!new)>(P: Providers<R, S>, k: nat, prev: Table<S>, frontier: seq<S>,
                                                        st: RoundState<S>, st1: RoundState<S>, r: RoundState<S>)
    requires |frontier| > 0 && frontier[0] in prev && prev[frontier[0]].At?
    requires SameStops(prev, st) && SameStops(prev, st1) && SameStops(prev, r) && Step(k, st1, r)
    requires ByEdges(k, prev, frontier[0], P.transfersForStop(frontier[0]), st, st1)
    requires EdgesRelaxed(prev, frontier[0], P.transfersForStop(frontier[0]), st1.arrivals)
    requires ByFrontier(P, k, prev, frontier[1..], st1, r) && WalksRelaxed(P, prev, frontier[1..], r.arrivals)
    ensures ByFrontier(P, k, prev, frontier, st, r) && WalksRelaxed(P, prev, frontier, r.arrivals)
  {
    forall s | s in prev
      ensures FromFrontier(P, k, prev, frontier, st, r, s)
    {
      assert FromFrontier(P, k, prev, frontier[1..], st1, r, s);
      assert ByEdge(k, prev, frontier[0], P.transfersForStop(frontier[0]), st, st1, s);
      if Unchanged(st1, r, s) && !Unchanged(st, st1, s) {
        assert r.ledger[s][k] == st1.ledger[s][k];
      }
    }
    EdgesRelaxedLower(prev, frontier[0], P.transfersForStop(frontier[0]), st1.arrivals, r.arrivals);
    forall o | o in frontier
      ensures StopRelaxed(P, prev, o, r.arrivals)
    {
      if o != frontier[0] {
        assert o in frontier[1..];
      }
    }
  }
}
