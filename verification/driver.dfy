/** The round loop: starting from round 0, run rounds while the previous
    round marked some stop. */
module RoundDriver {
  import opened Wrappers
  import opened Times
  import opened Collections
  import opened Network
  import opened Tables
  import opened RouteQueue
  import opened RouteScan
  import opened TransferRelax
  import opened Rounds

  /** Why a planning call yields no journey list. */
  datatype PlanError<S> =
    | RoundLimit                         // the round bound ran out with stops still marked
    | UnknownDestination(stop: S)        // the destination has no ledger slot
    | MissingLink(stop: S, round: nat)   // reconstruction met no link for this stop and round
    | BadStopIndex(stop: S, round: nat)  // a ride link names a position outside its trip

  /** The arrival tables of rounds 0.. and the ledger, once the loop stops. */
  datatype Search<S(==)> = Search(tables: seq<Table<S>>, ledger: Ledger<S>)

  /** `s` is marked at the end of round `j`: the origin for round 0, else a
      stop with a round-`j` link. */
  ghost predicate InFrontier<S>(origin: S, ledger: Ledger<S>, j: nat, s: S) {
    if j == 0 then s == origin else s in ledger && j in ledger[s]
  }

  /** What holds after every completed round (`|tables| - 1` rounds so far). */
  ghost predicate PlanInv<R(!new), S(!new)>(P: Providers<R, S>, origin: S, tables: seq<Table<S>>, ledger: Ledger<S>, frontier: seq<S>) {
    && Shape(P, origin, tables, ledger)
    && Monotone(P, tables)
    && Gated(tables, ledger)
    && Linked(P, origin, tables, ledger)
    && FrontierIs(P, origin, tables, ledger, frontier)
    && Justified(tables, ledger)
  }

  /** Every table covers exactly the known stops, and so does the ledger;
      round 0 has the origin reached and every other stop unreached. */
  ghost predicate Shape<R, S(!new)>(P: Providers<R, S>, origin: S, tables: seq<Table<S>>, ledger: Ledger<S>) {
    && |tables| >= 1
    && origin in P.stops
    && (forall j, s :: 0 <= j < |tables| ==> (s in tables[j] <==> s in P.stops))
    && (forall s :: s in ledger <==> s in P.stops)
    && origin in tables[0] && tables[0][origin].At?
    && (forall s :: s in tables[0] && s != origin ==> tables[0][s] == Infinity)
  }

  /** Arrivals never rise from one round to the next. */
  ghost predicate Monotone<R, S>(P: Providers<R, S>, tables: seq<Table<S>>) {
    forall j, s :: 1 <= j < |tables| && s in P.stops && s in tables[j] && s in tables[j - 1] ==> NoLater(tables[j][s], tables[j - 1][s])
  }

  /** The ledger has a link for (s, j) exactly when round j strictly improved s. */
  ghost predicate Gated<S>(tables: seq<Table<S>>, ledger: Ledger<S>) {
    && (forall s, j: nat :: s in ledger && j in ledger[s] ==> 1 <= j < |tables|)
    && (forall s, j :: s in ledger && 1 <= j < |tables| && s in tables[j] && s in tables[j - 1] ==>
         (j in ledger[s] <==> Before(tables[j][s], tables[j - 1][s])))
  }

  /** Every link explains its round's arrival, and a walk of round j starts at
      a stop marked in round j - 1. */
  ghost predicate Linked<R(!new), S>(P: Providers<R, S>, origin: S, tables: seq<Table<S>>, ledger: Ledger<S>) {
    LinksExplain(P, tables, ledger) && WalksFromFrontier(origin, ledger)
  }

  ghost predicate LinksExplain<R(!new), S>(P: Providers<R, S>, tables: seq<Table<S>>, ledger: Ledger<S>) {
    forall s, j: nat :: s in ledger && j in ledger[s] && 1 <= j < |tables| && s in tables[j] ==>
      Explains(P, tables[j - 1], s, tables[j][s], ledger[s][j])
  }

  ghost predicate WalksFromFrontier<S>(origin: S, ledger: Ledger<S>) {
    forall s, j: nat | s in ledger :: WalkStart(origin, ledger, s, j)
  }

  /** A walk recorded for `s` in round `j` starts at a stop marked in round `j - 1`. */
  ghost predicate WalkStart<S>(origin: S, ledger: Ledger<S>, s: S, j: nat) {
    s in ledger && j in ledger[s] && 1 <= j && ledger[s][j].Transfer? ==>
      InFrontier(origin, ledger, j - 1, ledger[s][j].origin)
  }

  /** `frontier` enumerates, without repetition, the stops marked by the last round. */
  ghost predicate FrontierIs<R, S(!new)>(P: Providers<R, S>, origin: S, tables: seq<Table<S>>, ledger: Ledger<S>, frontier: seq<S>)
    requires |tables| >= 1
  {
    && Distinct(frontier)
    && (forall s :: s in frontier <==> s in P.stops && InFrontier(origin, ledger, |tables| - 1, s))
  }

  /** Every round after the first ran because the round before marked a stop. */
  ghost predicate Justified<S>(tables: seq<Table<S>>, ledger: Ledger<S>) {
    forall j :: 1 <= j < |tables| - 1 ==> Marked(ledger, j)
  }

  /** Round `j` marked some stop. */
  ghost predicate Marked<S>(ledger: Ledger<S>, j: nat) {
    exists s :: s in ledger && j in ledger[s]
  }

  /** `s` is a known stop marked in round `j`. */
  ghost predicate MarkedIn<R, S>(P: Providers<R, S>, origin: S, ledger: Ledger<S>, j: nat, s: S) {
    s in P.stops && InFrontier(origin, ledger, j, s)
  }

  /** If `m2` is marked in round `j` and served by `route`, then `m` comes no
      later than `m2` on the route's path. */
  ghost predicate NotAfter<R, S>(P: Providers<R, S>, origin: S, ledger: Ledger<S>, j: nat, route: R, m: S, m2: S) {
    MarkedIn(P, origin, ledger, j, m2) && route in P.routesByStop(m2) ==> P.routeStopIndex(route, m) <= P.routeStopIndex(route, m2)
  }

  /** Round `j + 1` scans `route` from stop `m`: a stop marked in round `j`
      that the route serves, at the earliest path position among such stops. */
  ghost predicate QueuedAt<R, S(!new)>(P: Providers<R, S>, origin: S, ledger: Ledger<S>, j: nat, route: R, m: S) {
    && MarkedIn(P, origin, ledger, j, m) && route in P.routesByStop(m)
    && forall m2 :: NotAfter(P, origin, ledger, j, route, m, m2)
  }

  /** No arrival of `after` is later than a ride on `route` boarded from stop
      `m` on, with the trips the previous table `prev` allows. */
  ghost predicate RideRelaxedFrom<R(!new), S>(P: Providers<R, S>, prev: Table<S>, route: R, m: S, after: Table<S>) {
    TripsConsistent(P) && PathIn(P, route, prev) && 0 <= P.routeStopIndex(route, m) ==>
      RidesRelaxed(P, prev, route, P.routeStopIndex(route, m), P.routeStopIndex(route, m), None, after)
  }

  /** The round after round `marked` left nothing to relax: the table `after`
      it produced is no later, anywhere, than a walk of a transfer from a stop
      marked in round `marked`, or than a ride on a route from the stop the
      route is scanned from, with the trips the previous table `prev` allows. */
  ghost predicate RoundRelaxed<R(!new), S(!new)>(P: Providers<R, S>, origin: S, ledger: Ledger<S>, marked: nat, prev: Table<S>, after: Table<S>) {
    && (forall o :: MarkedIn(P, origin, ledger, marked, o) ==> StopRelaxed(P, prev, o, after))
    && (forall route, m :: QueuedAt(P, origin, ledger, marked, route, m) ==> RideRelaxedFrom(P, prev, route, m, after))
  }

  /** Every completed round left nothing to relax. */
  ghost predicate Relaxed<R(!new), S(!new)>(P: Providers<R, S>, origin: S, tables: seq<Table<S>>, ledger: Ledger<S>) {
    forall j :: 1 <= j < |tables| ==> RelaxedAt(P, origin, tables, ledger, j)
  }

  /** Round `j` of the search left nothing to relax. */
  ghost predicate RelaxedAt<R(!new), S(!new)>(P: Providers<R, S>, origin: S, tables: seq<Table<S>>, ledger: Ledger<S>, j: nat)
    requires 1 <= j < |tables|
  {
    RoundRelaxed(P, origin, ledger, j - 1, tables[j - 1], tables[j])
  }

  /** `L` agrees with `ledger` on every round but `k`. */
  ghost predicate AgreeExcept<S>(ledger: Ledger<S>, L: Ledger<S>, k: nat) {
    && ledger.Keys == L.Keys
    && (forall s, j: nat :: s in ledger && j != k ==> (j in L[s] <==> j in ledger[s]))
    && (forall s, j: nat :: s in ledger && j != k && j in ledger[s] ==> L[s][j] == ledger[s][j])
  }

  lemma {:induction false} AgreeFromRound<R(!new), S(!new)>(P: Providers<R, S>, k: nat, prev: Table<S>, frontier: seq<S>, ledger: Ledger<S>, st: RoundState<S>)
    requires RoundInv(P, k, prev, frontier, ledger, st)
    ensures AgreeExcept(ledger, st.ledger, k)
  {
    var L := st.ledger;
    forall s, j: nat | s in ledger && j != k
      ensures j in L[s] <==> j in ledger[s]
      ensures j in ledger[s] ==> L[s][j] == ledger[s][j]
    {
      assert L[s] - {k} == ledger[s] - {k};
      assert j in L[s] - {k} <==> j in L[s];
      assert j in ledger[s] - {k} <==> j in ledger[s];
      if j in ledger[s] {
        assert (L[s] - {k})[j] == L[s][j];
        assert (ledger[s] - {k})[j] == ledger[s][j];
      }
    }
  }

  /** The state before round 1: round 0's table, the empty ledger, and the
      origin as the only marked stop. */
  lemma {:induction false} Start<R(!new), S(!new)>(P: Providers<R, S>, origin: S, departure: int)
    requires origin in P.stops
    ensures PlanInv(P, origin, [CreateKArrivals(P.stops, origin, departure)], CreateKConnections(P.stops), [origin])
  {
  }

  /** The stops marked by the last completed round were reached in it. */
  lemma {:induction false} FrontierReached<R(!new), S(!new)>(P: Providers<R, S>, origin: S, tables: seq<Table<S>>, ledger: Ledger<S>, frontier: seq<S>)
    requires PlanInv(P, origin, tables, ledger, frontier)
    ensures forall s :: s in frontier ==> s in tables[|tables| - 1] && tables[|tables| - 1][s].At?
  {
    var last := |tables| - 1;
    forall s | s in frontier
      ensures s in tables[last] && tables[last][s].At?
    {
      if last > 0 {
        assert Before(tables[last][s], tables[last - 1][s]);
      }
    }
  }

  /** Round `|tables|` can run on a non-empty frontier, and keeps the invariant. */
  lemma {:induction false} Advance<R(!new), S(!new)>(P: Providers<R, S>, origin: S, tables: seq<Table<S>>, ledger: Ledger<S>, frontier: seq<S>)
    requires Consistent(P)
    requires PlanInv(P, origin, tables, ledger, frontier) && frontier != []
    ensures Ready(P, |tables|, tables[|tables| - 1], frontier, ledger)
    ensures var st := Round(P, |tables|, tables[|tables| - 1], frontier, ledger);
      PlanInv(P, origin, tables + [st.arrivals], st.ledger, st.marked)
  {
    FrontierReached(P, origin, tables, ledger, frontier);
    var st := Round(P, |tables|, tables[|tables| - 1], frontier, ledger);
    RoundKeepsInvariant(P, origin, tables, ledger, frontier, st);
  }

  /** Running round `|tables|` on a non-empty frontier keeps the invariant. */
  lemma {:induction false} RoundKeepsInvariant<R(!new), S(!new)>(P: Providers<R, S>, origin: S, tables: seq<Table<S>>, ledger: Ledger<S>, frontier: seq<S>, st: RoundState<S>)
    requires PlanInv(P, origin, tables, ledger, frontier) && frontier != []
    requires RoundInv(P, |tables|, tables[|tables| - 1], frontier, ledger, st)
    ensures PlanInv(P, origin, tables + [st.arrivals], st.ledger, st.marked)
  {
    var k := |tables|;
    var T := tables + [st.arrivals];
    AgreeFromRound(P, k, tables[k - 1], frontier, ledger, st);
    assert forall j :: 0 <= j < k ==> T[j] == tables[j];
    NextShape(P, origin, tables, ledger, frontier, st);
    NextGated(P, origin, tables, ledger, frontier, st);
    NextLinked(P, origin, tables, ledger, frontier, st);
    NextJustified(P, origin, tables, ledger, frontier, st);
  }

  lemma {:induction false} NextShape<R(!new), S(!new)>(P: Providers<R, S>, origin: S, tables: seq<Table<S>>, ledger: Ledger<S>, frontier: seq<S>, st: RoundState<S>)
    requires Shape(P, origin, tables, ledger) && Monotone(P, tables)
    requires RoundInv(P, |tables|, tables[|tables| - 1], frontier, ledger, st)
    ensures Shape(P, origin, tables + [st.arrivals], st.ledger)
    ensures Monotone(P, tables + [st.arrivals])
  {
    var T := tables + [st.arrivals];
    assert forall j :: 0 <= j < |tables| ==> T[j] == tables[j];
  }

  lemma {:induction false} NextGated<R(!new), S(!new)>(P: Providers<R, S>, origin: S, tables: seq<Table<S>>, ledger: Ledger<S>, frontier: seq<S>, st: RoundState<S>)
    requires Shape(P, origin, tables, ledger) && Gated(tables, ledger)
    requires RoundInv(P, |tables|, tables[|tables| - 1], frontier, ledger, st)
    requires AgreeExcept(ledger, st.ledger, |tables|)
    ensures Gated(tables + [st.arrivals], st.ledger)
    ensures FrontierIs(P, origin, tables + [st.arrivals], st.ledger, st.marked)
  {
    var T := tables + [st.arrivals];
    assert forall j :: 0 <= j < |tables| ==> T[j] == tables[j];
  }

  lemma {:induction false} NextLinked<R(!new), S(!new)>(P: Providers<R, S>, origin: S, tables: seq<Table<S>>, ledger: Ledger<S>, frontier: seq<S>, st: RoundState<S>)
    requires Shape(P, origin, tables, ledger) && Gated(tables, ledger) && Linked(P, origin, tables, ledger)
    requires FrontierIs(P, origin, tables, ledger, frontier)
    requires RoundInv(P, |tables|, tables[|tables| - 1], frontier, ledger, st)
    requires AgreeExcept(ledger, st.ledger, |tables|)
    ensures Linked(P, origin, tables + [st.arrivals], st.ledger)
  {
    NextExplain(P, tables, ledger, frontier, st);
    assert forall s :: s in st.ledger && |tables| in st.ledger[s] && st.ledger[s][|tables|].Transfer? ==>
      st.ledger[s][|tables|].origin in frontier;
    NextWalks(origin, |tables|, ledger, frontier, st.ledger);
  }

  lemma {:induction false} NextExplain<R(!new), S(!new)>(P: Providers<R, S>, tables: seq<Table<S>>, ledger: Ledger<S>, frontier: seq<S>, st: RoundState<S>)
    requires |tables| >= 1 && Gated(tables, ledger) && LinksExplain(P, tables, ledger)
    requires RoundInv(P, |tables|, tables[|tables| - 1], frontier, ledger, st)
    requires AgreeExcept(ledger, st.ledger, |tables|)
    ensures LinksExplain(P, tables + [st.arrivals], st.ledger)
  {
    var T := tables + [st.arrivals];
    assert forall j :: 0 <= j < |tables| ==> T[j] == tables[j];
  }

  lemma {:induction false} NextWalks<S>(origin: S, k: nat, ledger: Ledger<S>, frontier: seq<S>, L: Ledger<S>)
    requires k >= 1 && WalksFromFrontier(origin, ledger) && AgreeExcept(ledger, L, k)
    requires forall s, j: nat :: s in ledger && j in ledger[s] ==> j < k
    requires forall s :: s in frontier ==> InFrontier(origin, ledger, k - 1, s)
    requires forall s :: s in L && k in L[s] && L[s][k].Transfer? ==> L[s][k].origin in frontier
    ensures WalksFromFrontier(origin, L)
  {
    forall s, j: nat | s in L
      ensures WalkStart(origin, L, s, j)
    {
      if j in L[s] && 1 <= j && L[s][j].Transfer? {
        var o := L[s][j].origin;
        if j == k {
          assert InFrontier(origin, ledger, k - 1, o);
        } else {
          assert j in ledger[s] && L[s][j] == ledger[s][j];
          assert WalkStart(origin, ledger, s, j);
          assert InFrontier(origin, ledger, j - 1, o);
        }
      }
    }
  }

  lemma {:induction false} NextJustified<R(!new), S(!new)>(P: Providers<R, S>, origin: S, tables: seq<Table<S>>, ledger: Ledger<S>, frontier: seq<S>, st: RoundState<S>)
    requires Shape(P, origin, tables, ledger) && Justified(tables, ledger) && frontier != []
    requires FrontierIs(P, origin, tables, ledger, frontier)
    requires AgreeExcept(ledger, st.ledger, |tables|)
    ensures Justified(tables + [st.arrivals], st.ledger)
  {
    var k := |tables|;
    var L: Ledger<S> := st.ledger;
    forall j | 1 <= j < k
      ensures Marked(L, j)
    {
      if j < k - 1 {
        assert Marked(ledger, j);
        var s :| s in ledger && j in ledger[s];
        assert s in L && j in L[s];
      } else {
        assert frontier[0] in frontier;
        assert InFrontier(origin, ledger, j, frontier[0]);
        assert frontier[0] in L && j in L[frontier[0]];
      }
    }
  }

  /** Round `|tables|`, run on the stops the last round marked. */
  function NextRound<R(==, !new), S(==, !new)>(P: Providers<R, S>, origin: S, tables: seq<Table<S>>, ledger: Ledger<S>,
                                               frontier: seq<S>): (st: RoundState<S>)
    requires Consistent(P)
    requires PlanInv(P, origin, tables, ledger, frontier) && frontier != []
    ensures PlanInv(P, origin, tables + [st.arrivals], st.ledger, st.marked)
    ensures Relaxed(P, origin, tables, ledger) ==> Relaxed(P, origin, tables + [st.arrivals], st.ledger)
  {
    Advance(P, origin, tables, ledger, frontier);
    RoundKeepsRelaxed(P, origin, tables, ledger, frontier);
    Round(P, |tables|, tables[|tables| - 1], frontier, ledger)
  }

  /** The stops marked by the last of `n` more rounds run from `frontier`,
      stopping early at the first round that marks nothing. */
  ghost function MarkedAfter<R(!new), S(!new)>(P: Providers<R, S>, origin: S, tables: seq<Table<S>>, ledger: Ledger<S>,
                                                       frontier: seq<S>, n: nat): seq<S>
    requires Consistent(P)
    requires PlanInv(P, origin, tables, ledger, frontier)
    decreases n
  {
    if frontier == [] || n == 0 then frontier
    else
      var st := NextRound(P, origin, tables, ledger, frontier);
      MarkedAfter(P, origin, tables + [st.arrivals], st.ledger, st.marked, n - 1)
  }

  /** Run rounds `|tables|`, `|tables| + 1`, ... while the last round marked
      some stop, at most `fuel` of them: it stops at once on an empty marked
      set, and it reports RoundLimit exactly when the last of its `fuel`
      rounds still marked a stop. */
  function Run<R(==, !new), S(==, !new)>(P: Providers<R, S>, origin: S, tables: seq<Table<S>>, ledger: Ledger<S>,
                                         frontier: seq<S>, fuel: nat): (r: Result<Search<S>, PlanError<S>>)
    requires Consistent(P)
    requires PlanInv(P, origin, tables, ledger, frontier)
    ensures r.Success? ==> PlanInv(P, origin, r.value.tables, r.value.ledger, [])
    ensures r.Success? ==> |tables| <= |r.value.tables| <= |tables| + fuel
    ensures r.Failure? ==> r.error == RoundLimit
    ensures r.Success? && Relaxed(P, origin, tables, ledger) ==> Relaxed(P, origin, r.value.tables, r.value.ledger)
    ensures frontier == [] ==> r == Success(Search(tables, ledger))
    ensures r.Failure? <==> MarkedAfter(P, origin, tables, ledger, frontier, fuel) != []
    decreases fuel
  {
    if frontier == [] then Success(Search(tables, ledger))
    else if fuel == 0 then Failure(RoundLimit)
    else
      var st := NextRound(P, origin, tables, ledger, frontier);
      Run(P, origin, tables + [st.arrivals], st.ledger, st.marked, fuel - 1)
  }

  /** Arrivals never rise over any number of rounds. */
  lemma {:induction false} MonotoneAcross<R, S(!new)>(P: Providers<R, S>, origin: S, tables: seq<Table<S>>, ledger: Ledger<S>,
                                                     s: S, i: nat, j: nat)
    requires Shape(P, origin, tables, ledger) && Monotone(P, tables)
    requires s in P.stops && i <= j < |tables|
    ensures NoLater(tables[j][s], tables[i][s])
    decreases j - i
  {
    if i < j {
      MonotoneAcross(P, origin, tables, ledger, s, i, j - 1);
    }
  }

  /** The rounds that improved a stop reach it strictly earlier the more
      rounds they use: the round keys of a ledger slot form a Pareto set of
      (rounds, arrival). */
  lemma {:induction false} MoreRoundsArriveEarlier<R, S(!new)>(P: Providers<R, S>, origin: S, tables: seq<Table<S>>, ledger: Ledger<S>,
                                                              s: S, i: nat, j: nat)
    requires Shape(P, origin, tables, ledger) && Monotone(P, tables) && Gated(tables, ledger)
    requires s in P.stops && i in ledger[s] && j in ledger[s] && i < j
    ensures Before(tables[j][s], tables[i][s])
  {
    MonotoneAcross(P, origin, tables, ledger, s, i, j - 1);
  }

  /** One more round of `Run` is round `k` run on the last table `prev`
      and the frontier. */
  lemma {:induction false} RunStep<R(!new), S(!new)>(P: Providers<R, S>, origin: S, tables: seq<Table<S>>, ledger: Ledger<S>, frontier: seq<S>, fuel: nat,
                                  k: nat, prev: Table<S>)
    requires Consistent(P) && PlanInv(P, origin, tables, ledger, frontier) && frontier != [] && fuel > 0
    requires |tables| == k && tables[k - 1] == prev
    ensures Ready(P, k, prev, frontier, ledger)
    ensures var st := Round(P, k, prev, frontier, ledger);
            PlanInv(P, origin, tables + [st.arrivals], st.ledger, st.marked) &&
            Run(P, origin, tables, ledger, frontier, fuel) == Run(P, origin, tables + [st.arrivals], st.ledger, st.marked, fuel - 1)
  {
    Advance(P, origin, tables, ledger, frontier);
    assert NextRound(P, origin, tables, ledger, frontier) == Round(P, k, prev, frontier, ledger);
  }

  /** Rounds before `k` see the same marked stops in a ledger that agrees on
      every round but `k`. */
  lemma {:induction false} FrontierAgree<R, S>(P: Providers<R, S>, origin: S, ledger: Ledger<S>, L: Ledger<S>, k: nat)
    requires AgreeExcept(ledger, L, k)
    ensures forall j: nat, s :: j < k ==> (MarkedIn(P, origin, L, j, s) <==> MarkedIn(P, origin, ledger, j, s))
  {
  }

  /** Whether a round left something to relax depends on the ledger only
      through the stops marked in the round before it. */
  lemma {:induction false} RoundRelaxedAgree<R(!new), S(!new)>(P: Providers<R, S>, origin: S, ledger: Ledger<S>, L: Ledger<S>, marked: nat,
                                                              prev: Table<S>, after: Table<S>)
    requires forall s :: MarkedIn(P, origin, L, marked, s) <==> MarkedIn(P, origin, ledger, marked, s)
    requires RoundRelaxed(P, origin, ledger, marked, prev, after)
    ensures RoundRelaxed(P, origin, L, marked, prev, after)
  {
    forall route, m | QueuedAt(P, origin, L, marked, route, m)
      ensures QueuedAt(P, origin, ledger, marked, route, m)
    {
      forall m2
        ensures NotAfter(P, origin, ledger, marked, route, m, m2)
      {
        assert NotAfter(P, origin, L, marked, route, m, m2);
      }
    }
  }

  /** The rounds already relaxed stay relaxed after round `|tables|`. */
  lemma {:induction false} RelaxedKept<R(!new), S(!new)>(P: Providers<R, S>, origin: S, tables: seq<Table<S>>, ledger: Ledger<S>, T: seq<Table<S>>, L: Ledger<S>)
    requires Relaxed(P, origin, tables, ledger) && AgreeExcept(ledger, L, |tables|)
    requires |T| == |tables| + 1 && forall j :: 0 <= j < |tables| ==> T[j] == tables[j]
    ensures forall j :: 1 <= j < |tables| ==> RelaxedAt(P, origin, T, L, j)
  {
    FrontierAgree(P, origin, ledger, L, |tables|);
    forall j | 1 <= j < |tables|
      ensures RelaxedAt(P, origin, T, L, j)
    {
      assert RelaxedAt(P, origin, tables, ledger, j);
      RoundRelaxedAgree(P, origin, ledger, L, j - 1, tables[j - 1], tables[j]);
    }
  }

  /** The route queue built from `frontier` scans a route from the marked
      stop that comes first on its path. */
  lemma {:induction false} QueuedStart<R(!new), S(!new)>(P: Providers<R, S>, frontier: seq<S>, route: R, m: S)
    requires StopOrderConsistent(P) && RoutesConsistent(P) && (forall s :: s in frontier ==> s in P.stops)
    requires m in frontier && route in P.routesByStop(m)
    requires forall m2 :: m2 in frontier && route in P.routesByStop(m2) ==> P.routeStopIndex(route, m) <= P.routeStopIndex(route, m2)
    ensures exists y ::
      0 <= y < |GetQueue(P, frontier).order| && GetQueue(P, frontier).order[y] == route
      && route in GetQueue(P, frontier).stopOf && StartOf(P, GetQueue(P, frontier), y) == P.routeStopIndex(route, m)
  {
    var q := GetQueue(P, frontier);
    var y :| 0 <= y < |q.order| && q.order[y] == route;
    var m2 := q.stopOf[route];
    assert !P.isStopBefore(route, m, m2);
    assert StartOf(P, q, y) == P.routeStopIndex(route, m);
  }

  /** A round that relaxed every queued ride and every walk from `frontier`,
      where `frontier` holds the stops marked in round `k - 1`, leaves nothing
      to relax. */
  lemma {:induction false} RoundRelaxedNow<R(!new), S(!new)>(P: Providers<R, S>, origin: S, L: Ledger<S>, k: nat, prev: Table<S>,
                                                            frontier: seq<S>, after: Table<S>)
    requires Consistent(P) && k >= 1
    requires forall s :: s in prev <==> s in P.stops
    requires forall s :: s in frontier ==> s in P.stops
    requires forall s :: s in frontier <==> MarkedIn(P, origin, L, k - 1, s)
    requires QueueRelaxed(P, prev, GetQueue(P, frontier), 0, after)
    requires WalksRelaxed(P, prev, frontier, after)
    ensures RoundRelaxed(P, origin, L, k - 1, prev, after)
  {
    var q := GetQueue(P, frontier);
    QueueScannable(P, prev, frontier);
    forall route, m | QueuedAt(P, origin, L, k - 1, route, m)
      ensures RideRelaxedFrom(P, prev, route, m, after)
    {
      forall m2 | m2 in frontier && route in P.routesByStop(m2)
        ensures P.routeStopIndex(route, m) <= P.routeStopIndex(route, m2)
      {
        assert NotAfter(P, origin, L, k - 1, route, m, m2);
      }
      QueuedStart(P, frontier, route, m);
      var y :| 0 <= y < |q.order| && q.order[y] == route && route in q.stopOf && StartOf(P, q, y) == P.routeStopIndex(route, m);
    }
  }

  /** Round `|tables|` keeps every round relaxed, given the ledger `L` it
      left, the stops `frontier` it started from and the table `after` it
      produced. */
  lemma {:induction false} NextRelaxed<R(!new), S(!new)>(P: Providers<R, S>, origin: S, tables: seq<Table<S>>, ledger: Ledger<S>,
                                                        frontier: seq<S>, L: Ledger<S>, after: Table<S>)
    requires Consistent(P) && |tables| >= 1 && (forall s :: s in tables[|tables| - 1] <==> s in P.stops)
    requires Relaxed(P, origin, tables, ledger) && AgreeExcept(ledger, L, |tables|)
    requires forall s :: s in frontier ==> s in P.stops
    requires forall s :: s in frontier <==> MarkedIn(P, origin, ledger, |tables| - 1, s)
    requires QueueRelaxed(P, tables[|tables| - 1], GetQueue(P, frontier), 0, after)
    requires WalksRelaxed(P, tables[|tables| - 1], frontier, after)
    ensures Relaxed(P, origin, tables + [after], L)
  {
    var k := |tables|;
    var T := tables + [after];
    assert forall j :: 0 <= j < k ==> T[j] == tables[j];
    RelaxedKept(P, origin, tables, ledger, T, L);
    FrontierAgree(P, origin, ledger, L, k);
    RoundRelaxedNow(P, origin, L, k, tables[k - 1], frontier, after);
    assert T[k - 1] == tables[k - 1] && T[k] == after;
    RelaxedExtend(P, origin, T, L);
  }

  lemma {:induction false} RelaxedExtend<R(!new), S(!new)>(P: Providers<R, S>, origin: S, T: seq<Table<S>>, L: Ledger<S>)
    requires |T| >= 2
    requires forall j :: 1 <= j < |T| - 1 ==> RelaxedAt(P, origin, T, L, j)
    requires RoundRelaxed(P, origin, L, |T| - 2, T[|T| - 2], T[|T| - 1])
    ensures Relaxed(P, origin, T, L)
  {
  }

  /** What round `|tables|` leaves for the relaxation argument: a ledger that
      agrees on the earlier rounds, every queued ride and every walk relaxed. */
  lemma {:induction false} RoundRelaxes<R(!new), S(!new)>(P: Providers<R, S>, origin: S, tables: seq<Table<S>>, ledger: Ledger<S>, frontier: seq<S>)
    requires Consistent(P) && PlanInv(P, origin, tables, ledger, frontier) && frontier != []
    ensures Ready(P, |tables|, tables[|tables| - 1], frontier, ledger)
    ensures var st := Round(P, |tables|, tables[|tables| - 1], frontier, ledger);
      && AgreeExcept(ledger, st.ledger, |tables|)
      && QueueRelaxed(P, tables[|tables| - 1], GetQueue(P, frontier), 0, st.arrivals)
      && WalksRelaxed(P, tables[|tables| - 1], frontier, st.arrivals)
  {
    Advance(P, origin, tables, ledger, frontier);
    var st := Round(P, |tables|, tables[|tables| - 1], frontier, ledger);
    AgreeFromRound(P, |tables|, tables[|tables| - 1], frontier, ledger, st);
  }

  /** Round `|tables|` keeps every round relaxed. */
  lemma {:induction false} RoundKeepsRelaxed<R(!new), S(!new)>(P: Providers<R, S>, origin: S, tables: seq<Table<S>>, ledger: Ledger<S>, frontier: seq<S>)
    requires Consistent(P) && PlanInv(P, origin, tables, ledger, frontier) && frontier != []
    ensures Ready(P, |tables|, tables[|tables| - 1], frontier, ledger)
    ensures var st := Round(P, |tables|, tables[|tables| - 1], frontier, ledger);
      Relaxed(P, origin, tables, ledger) ==> Relaxed(P, origin, tables + [st.arrivals], st.ledger)
  {
    RoundRelaxes(P, origin, tables, ledger, frontier);
    var st := Round(P, |tables|, tables[|tables| - 1], frontier, ledger);
    if Relaxed(P, origin, tables, ledger) {
      NextRelaxed(P, origin, tables, ledger, frontier, st.ledger, st.arrivals);
    }
  }
}
