/** The planner's public operation: plan journeys from an origin stop to a
    destination stop departing at a given instant. */
module Raptor {
  import opened Wrappers
  import opened Times
  import opened Network
  import opened Tables
  import opened RoundDriver
  import opened Journeys

  /** The stops marked by round `n` of a planning call, or the first empty
      marked set met before it. */
  ghost function MarkedBy<R(!new), S(!new)>(P: Providers<R, S>, origin: S, departure: int, n: nat): seq<S>
    requires Consistent(P) && origin in P.stops
  {
    Start(P, origin, departure);
    MarkedAfter(P, origin, [CreateKArrivals(P.stops, origin, departure)], CreateKConnections(P.stops), [origin], n)
  }

  /** The round loop of a planning call, from round 0 with the origin marked;
      it runs out of rounds exactly when round `maxRounds` still marked a stop. */
  function SearchFrom<R(==, !new), S(==, !new)>(P: Providers<R, S>, origin: S, departure: int, maxRounds: nat): (r: Result<Search<S>, PlanError<S>>)
    requires Consistent(P) && origin in P.stops
    ensures r.Success? ==> PlanInv(P, origin, r.value.tables, r.value.ledger, [])
    ensures r.Success? ==> 2 <= |r.value.tables| <= maxRounds + 1
    ensures r.Failure? ==> r.error == RoundLimit
    ensures r.Success? ==> Relaxed(P, origin, r.value.tables, r.value.ledger)
    ensures r.Failure? <==> MarkedBy(P, origin, departure, maxRounds) != []
  {
    Start(P, origin, departure);
    assert Relaxed(P, origin, [CreateKArrivals(P.stops, origin, departure)], CreateKConnections(P.stops));
    Run(P, origin, [CreateKArrivals(P.stops, origin, departure)], CreateKConnections(P.stops), [origin], maxRounds)
  }

  /** Plan journeys from `origin` to `destination` leaving at `departure`,
      running at most `maxRounds` rounds. */
  method Plan<R(==, !new), S(==, !new)>(P: Providers<R, S>, origin: S, destination: S, departure: int, maxRounds: nat)
    returns (r: Result<seq<Journey<S>>, PlanError<S>>)
    requires Consistent(P) && origin in P.stops
    ensures SearchFrom(P, origin, departure, maxRounds).Failure? <==> r == Failure(RoundLimit)
    ensures r == Failure(RoundLimit) <==> MarkedBy(P, origin, departure, maxRounds) != []
    ensures SearchFrom(P, origin, departure, maxRounds).Success? && destination !in P.stops ==> r == Failure(UnknownDestination(destination))
    ensures SearchFrom(P, origin, departure, maxRounds).Success? && destination in P.stops ==> r.Success?
    ensures r.Success? ==> forall j :: j in r.value ==>
      1 <= |j.legs| && j.legs[0].origin == origin && j.legs[|j.legs| - 1].destination == destination && Connected(j.legs)
    ensures r.Success? ==> var ledger := SearchFrom(P, origin, departure, maxRounds).value.ledger;
      && |r.value| == |ledger[destination].Keys|
      && (forall k :: k in ledger[destination] ==> TraceJourney(ledger, destination, k).Success? && TraceJourney(ledger, destination, k).value in r.value)
      && (forall j :: j in r.value ==> exists k :: k in ledger[destination] && |j.legs| <= k && TraceJourney(ledger, destination, k) == Success(j))
    ensures r.Success? ==> var search := SearchFrom(P, origin, departure, maxRounds).value;
      Relaxed(P, origin, search.tables, search.ledger)
  {
    var search := SearchFrom(P, origin, departure, maxRounds);
    if search.Failure? {
      return Failure(search.error);
    }
    r := Answer(P, origin, search.value.tables, search.value.ledger, destination);
  }

  /** The answer of a finished round loop: the journeys to `destination`, one
      per round that improved it. */
  method Answer<R(!new), S(==, !new)>(P: Providers<R, S>, origin: S, tables: seq<Table<S>>, ledger: Ledger<S>, destination: S)
    returns (r: Result<seq<Journey<S>>, PlanError<S>>)
    requires PlanInv(P, origin, tables, ledger, [])
    ensures destination !in P.stops ==> r == Failure(UnknownDestination(destination))
    ensures destination in P.stops ==> r.Success?
    ensures r.Success? ==> forall j :: j in r.value ==>
      1 <= |j.legs| && j.legs[0].origin == origin && j.legs[|j.legs| - 1].destination == destination && Connected(j.legs)
    ensures r.Success? ==> destination in ledger && |r.value| == |ledger[destination].Keys|
    ensures r.Success? ==> forall k :: k in ledger[destination] ==>
      TraceJourney(ledger, destination, k).Success? && TraceJourney(ledger, destination, k).value in r.value
    ensures r.Success? ==> forall j :: j in r.value ==>
      exists k :: k in ledger[destination] && |j.legs| <= k && TraceJourney(ledger, destination, k) == Success(j)
  {
    var rounds;
    if destination in P.stops {
      JourneysSound(P, origin, tables, ledger, destination);
    }
    r, rounds := GetJourneys(ledger, destination);
    if r.Success? {
      JourneysListed(origin, ledger, destination, r.value, rounds);
    }
  }

  /** The journeys of the listed rounds are exactly the journeys of the
      destination's round keys, and each has the shape its round's walk has. */
  lemma {:induction false} JourneysListed<S>(origin: S, ledger: Ledger<S>, destination: S, js: seq<Journey<S>>, rounds: seq<nat>)
    requires destination in ledger && |js| == |rounds|
    requires forall i :: 0 <= i < |rounds| ==>
      rounds[i] in ledger[destination] && TraceJourney(ledger, destination, rounds[i]) == Success(js[i])
    requires forall k :: k in ledger[destination] ==> k in rounds
    requires forall k :: k in ledger[destination] ==> TraceJourney(ledger, destination, k).Success?
    requires forall k :: k in ledger[destination] ==>
      var legs := TraceJourney(ledger, destination, k).value.legs;
      1 <= |legs| <= k && legs[0].origin == origin && legs[|legs| - 1].destination == destination && Connected(legs)
    ensures forall j :: j in js ==>
      1 <= |j.legs| && j.legs[0].origin == origin && j.legs[|j.legs| - 1].destination == destination && Connected(j.legs)
    ensures forall j :: j in js ==>
      exists k :: k in ledger[destination] && |j.legs| <= k && TraceJourney(ledger, destination, k) == Success(j)
    ensures forall k :: k in ledger[destination] ==> TraceJourney(ledger, destination, k).value in js
  {
    forall j | j in js
      ensures 1 <= |j.legs| && j.legs[0].origin == origin && j.legs[|j.legs| - 1].destination == destination && Connected(j.legs)
      ensures exists k :: k in ledger[destination] && |j.legs| <= k && TraceJourney(ledger, destination, k) == Success(j)
    {
      var i :| 0 <= i < |js| && js[i] == j;
      assert rounds[i] in ledger[destination];
    }
    forall k | k in ledger[destination]
      ensures TraceJourney(ledger, destination, k).value in js
    {
      var i :| 0 <= i < |rounds| && rounds[i] == k;
      assert TraceJourney(ledger, destination, k).value == js[i];
    }
  }

  /** On a finished round loop, the corrected walk rebuilds the journey of
      every round that improved the destination: it leaves from the origin,
      arrives at the destination, chains leg to leg and has at most that
      round's number of legs. */
  lemma {:induction false} JourneysSound<R(!new), S(!new)>(P: Providers<R, S>, origin: S, tables: seq<Table<S>>, ledger: Ledger<S>, destination: S)
    requires PlanInv(P, origin, tables, ledger, [])
    requires destination in P.stops
    ensures destination in ledger
    ensures forall k :: k in ledger[destination] ==> TraceJourney(ledger, destination, k).Success?
    ensures forall k :: k in ledger[destination] ==>
      var legs := TraceJourney(ledger, destination, k).value.legs;
      1 <= |legs| <= k && legs[0].origin == origin && legs[|legs| - 1].destination == destination && Connected(legs)
  {
    forall k | k in ledger[destination]
      ensures TraceJourney(ledger, destination, k).Success?
      ensures var legs := TraceJourney(ledger, destination, k).value.legs;
        1 <= |legs| <= k && legs[0].origin == origin && legs[|legs| - 1].destination == destination && Connected(legs)
    {
      TraceJourneyShape(P, origin, tables, ledger, destination, k);
    }
  }
}
