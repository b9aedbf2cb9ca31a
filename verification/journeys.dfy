/** Journey reconstruction: for every round that improved the destination,
    follow the parent links backward from the destination down to round 0,
    then put the legs in travel order. */
module Journeys {
  import opened Wrappers
  import opened Times
  import opened Collections
  import opened Network
  import opened Tables
  import opened Rounds
  import opened RoundDriver

  datatype Leg<S> =
    | TimetableLeg(origin: S, destination: S, trip: Trip<S>)
    | TransferLeg(origin: S, destination: S, duration: int, distance: int)

  datatype Journey<S> = Journey(legs: seq<Leg<S>>)

  /** Each leg ends where the next one starts. */
  predicate Connected<S(==)>(legs: seq<Leg<S>>) {
    forall i :: 0 <= i < |legs| - 1 ==> legs[i].destination == legs[i + 1].origin
  }

  /** Each leg starts where the next one ends: travel order reversed. */
  predicate ConnectedBackward<S(==)>(legs: seq<Leg<S>>) {
    forall i :: 0 <= i < |legs| - 1 ==> legs[i].origin == legs[i + 1].destination
  }

  /** The legs met walking the ledger back from `s` at round `k`, latest
      first; fails where a link is missing or names a position outside its trip. */
  function BackwardLegs<S(==)>(ledger: Ledger<S>, s: S, k: nat): (r: Result<seq<Leg<S>>, PlanError<S>>)
    ensures r.Success? ==> |r.value| == k
    ensures r.Failure? ==> r.error.MissingLink? || r.error.BadStopIndex?
    decreases k
  {
    if k == 0 then Success([])
    else if s !in ledger || k !in ledger[s] then Failure(MissingLink(s, k))
    else
      match ledger[s][k]
      case Transfer(o, d, dur, dist) =>
        var rest := BackwardLegs(ledger, o, k - 1);
        if rest.Failure? then rest else Success([TransferLeg(o, d, dur, dist)] + rest.value)
      case Board(t, bp, si) =>
        if bp < |t.stopTimes| && si < |t.stopTimes| then
          var from := t.stopTimes[bp].stop;
          var rest := BackwardLegs(ledger, from, k - 1);
          if rest.Failure? then rest else Success([TimetableLeg(from, t.stopTimes[si].stop, t)] + rest.value)
        else Failure(BadStopIndex(s, k))
  }

  /** The journey of round `k` to `dest`, in travel order. */
  function Reconstruct<S(==)>(ledger: Ledger<S>, dest: S, k: nat): (r: Result<Journey<S>, PlanError<S>>)
    ensures r.Success? ==> |r.value.legs| == k
    ensures r.Success? <==> BackwardLegs(ledger, dest, k).Success?
    ensures r.Failure? ==> r.error.MissingLink? || r.error.BadStopIndex?
  {
    match BackwardLegs(ledger, dest, k)
    case Success(legs) => Success(Journey(Reverse(legs)))
    case Failure(e) => Failure(e)
  }

  /** A completed backward walk from `s` at round `k` over a ledger the round
      loop built has `k` legs, ends at `s`, starts at the origin, and its legs
      chain. */
  lemma {:induction false} BackwardShape<R(!new), S(!new)>(P: Providers<R, S>, origin: S, tables: seq<Table<S>>, ledger: Ledger<S>,
                                                    s: S, k: nat, legs: seq<Leg<S>>)
    requires Shape(P, origin, tables, ledger) && Linked(P, origin, tables, ledger)
    requires s in P.stops && 1 <= k < |tables|
    requires BackwardLegs(ledger, s, k) == Success(legs)
    ensures |legs| == k && legs[0].destination == s && legs[k - 1].origin == origin
    ensures ConnectedBackward(legs)
    decreases k
  {
    var c := ledger[s][k];
    assert Explains(P, tables[k - 1], s, tables[k][s], c);
    var from := if c.Transfer? then c.origin else c.trip.stopTimes[c.boardingPoint].stop;
    var rest := BackwardLegs(ledger, from, k - 1);
    assert legs == [legs[0]] + rest.value;
    assert legs[0].origin == from;
    if k == 1 {
      if c.Transfer? {
        assert InFrontier(origin, ledger, 0, from);
      }
    } else {
      BackwardShape(P, origin, tables, ledger, from, k - 1, rest.value);
    }
  }

  /** The journey of round `k` to `dest`, once reconstructed, leaves from the
      origin, arrives at `dest`, and its consecutive legs connect. */
  lemma {:induction false} JourneyShape<R(!new), S(!new)>(P: Providers<R, S>, origin: S, tables: seq<Table<S>>, ledger: Ledger<S>,
                                                   dest: S, k: nat)
    requires Shape(P, origin, tables, ledger) && Linked(P, origin, tables, ledger)
    requires dest in P.stops && 1 <= k < |tables|
    requires Reconstruct(ledger, dest, k).Success?
    ensures var legs := Reconstruct(ledger, dest, k).value.legs;
      |legs| == k && legs[0].origin == origin && legs[k - 1].destination == dest && Connected(legs)
  {
    var back := BackwardLegs(ledger, dest, k).value;
    BackwardShape(P, origin, tables, ledger, dest, k, back);
  }

  /** The latest round in `1..k` that has a link in `links`, if any. */
  function LastLink<S>(links: map<nat, Conn<S>>, k: nat): (r: Option<nat>)
    ensures r.Some? ==> 1 <= r.value <= k && r.value in links
    ensures r.Some? ==> forall j :: r.value < j <= k ==> j !in links
    ensures r.None? ==> forall j :: 1 <= j <= k ==> j !in links
    decreases k
  {
    if k == 0 then None
    else if k in links then Some(k)
    else LastLink(links, k - 1)
  }

  /** The backward walk with each boarding stop looked up at the round that
      last improved it, at or before the round the ride left from; the walk
      ends where a stop has no such round. */
  function TraceBack<S(==)>(ledger: Ledger<S>, s: S, k: nat): (r: Result<seq<Leg<S>>, PlanError<S>>)
    ensures r.Success? ==> |r.value| <= k
    ensures r.Failure? ==> r.error.MissingLink? || r.error.BadStopIndex?
    ensures r.Failure? && r.error.MissingLink? ==> r.error.stop !in ledger
    decreases k
  {
    if s !in ledger then Failure(MissingLink(s, k))
    else
      match LastLink(ledger[s], k)
      case None => Success([])
      case Some(j) =>
        match ledger[s][j]
        case Transfer(o, d, dur, dist) =>
          var rest := TraceBack(ledger, o, j - 1);
          if rest.Failure? then Failure(rest.error) else Success([TransferLeg(o, d, dur, dist)] + rest.value)
        case Board(t, bp, si) =>
          if bp < |t.stopTimes| && si < |t.stopTimes| then
            var from := t.stopTimes[bp].stop;
            var rest := TraceBack(ledger, from, j - 1);
            if rest.Failure? then Failure(rest.error) else Success([TimetableLeg(from, t.stopTimes[si].stop, t)] + rest.value)
          else Failure(BadStopIndex(s, j))
  }

  /** The journey of round `k` to `dest` by the corrected walk, in travel
      order: it fails exactly as the walk does; otherwise it has the walk's
      legs, starts where the walk's last leg starts, ends where its first leg
      ends, and chains forward when the walk chains backward. */
  function TraceJourney<S(==)>(ledger: Ledger<S>, dest: S, k: nat): (r: Result<Journey<S>, PlanError<S>>)
    ensures TraceBack(ledger, dest, k).Failure? ==> r == Failure(TraceBack(ledger, dest, k).error)
    ensures TraceBack(ledger, dest, k).Success? ==>
      var back := TraceBack(ledger, dest, k).value;
      && r.Success? && |r.value.legs| == |back| <= k
      && (back != [] ==> r.value.legs[0].origin == back[|back| - 1].origin && r.value.legs[|back| - 1].destination == back[0].destination)
      && (ConnectedBackward(back) ==> Connected(r.value.legs))
  {
    match TraceBack(ledger, dest, k)
    case Success(legs) =>
      Success(Journey(Reverse(legs)))
    case Failure(e) => Failure(e)
  }

  /** A stop no round in `1..k` improved keeps its round-0 arrival up to round `k`. */
  lemma {:induction false} Unimproved<R, S(!new)>(P: Providers<R, S>, origin: S, tables: seq<Table<S>>, ledger: Ledger<S>, s: S, k: nat)
    requires Shape(P, origin, tables, ledger) && Monotone(P, tables) && Gated(tables, ledger)
    requires s in P.stops && k < |tables|
    requires forall j :: 1 <= j <= k ==> j !in ledger[s]
    ensures tables[k][s] == tables[0][s]
    decreases k
  {
    if k > 0 {
      Unimproved(P, origin, tables, ledger, s, k - 1);
      assert !Before(tables[k][s], tables[k - 1][s]);
      assert NoLater(tables[k][s], tables[k - 1][s]);
    }
  }

  /** Every ride the round loop recorded can be caught: the round before it
      reached the boarding stop no later than the trip leaves there, and the
      trip reaches the linked stop at that stop's arrival. */
  lemma RideCatchable<R(!new), S(!new)>(P: Providers<R, S>, origin: S, tables: seq<Table<S>>, ledger: Ledger<S>, s: S, j: nat)
    requires PlanInv(P, origin, tables, ledger, [])
    requires s in P.stops && j in ledger[s] && ledger[s][j].Board?
    ensures var c := ledger[s][j];
      && 1 <= j < |tables| && c.boardingPoint < c.stopIndex < |c.trip.stopTimes|
      && c.trip.stopTimes[c.boardingPoint].stop in tables[j - 1]
      && NoLater(tables[j - 1][c.trip.stopTimes[c.boardingPoint].stop], At(c.trip.stopTimes[c.boardingPoint].departure))
      && tables[j][s] == At(c.trip.stopTimes[c.stopIndex].arrival)
  {
    assert Explains(P, tables[j - 1], s, tables[j][s], ledger[s][j]);
  }

  /** A link of round `j` that explains its arrival leaves from a stop round
      `j - 1` had reached, and its leg ends at the stop it belongs to. */
  lemma LinkSource<R(!new), S>(P: Providers<R, S>, tables: seq<Table<S>>, ledger: Ledger<S>, s: S, j: nat)
    requires LinksExplain(P, tables, ledger)
    requires s in ledger && j in ledger[s] && 1 <= j < |tables| && s in tables[j]
    ensures var c := ledger[s][j];
      && (c.Transfer? ==> c.destination == s && c.origin in tables[j - 1] && tables[j - 1][c.origin].At?)
      && (c.Board? ==>
            && c.boardingPoint < c.stopIndex < |c.trip.stopTimes| && c.trip.stopTimes[c.stopIndex].stop == s
            && c.trip.stopTimes[c.boardingPoint].stop in tables[j - 1] && tables[j - 1][c.trip.stopTimes[c.boardingPoint].stop].At?)
  {
    assert Explains(P, tables[j - 1], s, tables[j][s], ledger[s][j]);
  }

  /** The stop a link leaves from: a walk's origin or a ride's boarding stop. */
  function LinkFrom<S>(c: Conn<S>): S
    requires c.Board? ==> c.boardingPoint < |c.trip.stopTimes|
  {
    if c.Transfer? then c.origin else c.trip.stopTimes[c.boardingPoint].stop
  }

  /** One step of the corrected walk: if the walk from the stop a link leaves
      from succeeds, ends at the origin and chains, then so does the walk that
      starts with that link. */
  lemma TraceStep<S>(ledger: Ledger<S>, origin: S, s: S, k: nat, j: nat)
    requires s in ledger && LastLink(ledger[s], k) == Some(j)
    requires var c := ledger[s][j];
      && (c.Transfer? ==> c.destination == s)
      && (c.Board? ==> c.boardingPoint < c.stopIndex < |c.trip.stopTimes| && c.trip.stopTimes[c.stopIndex].stop == s)
    requires var from := LinkFrom(ledger[s][j]);
      && TraceBack(ledger, from, j - 1).Success?
      && var rest := TraceBack(ledger, from, j - 1).value;
      && (rest == [] ==> from == origin)
      && (rest != [] ==> rest[0].destination == from && rest[|rest| - 1].origin == origin)
      && ConnectedBackward(rest)
    ensures TraceBack(ledger, s, k).Success?
    ensures var legs := TraceBack(ledger, s, k).value;
      && legs != [] && legs[0].destination == s && legs[|legs| - 1].origin == origin
      && ConnectedBackward(legs)
  {
    var from := LinkFrom(ledger[s][j]);
    var rest := TraceBack(ledger, from, j - 1).value;
    var legs := TraceBack(ledger, s, k).value;
    assert legs == [legs[0]] + rest;
    assert legs[0].origin == from && legs[0].destination == s;
  }

  /** On a ledger the round loop built, the corrected walk from a stop reached
      by round `k` never fails: it ends at the origin, its legs chain, and its
      first (latest) leg arrives at the stop. */
  lemma {:induction false} TraceBackSucceeds<R(!new), S(!new)>(P: Providers<R, S>, origin: S, tables: seq<Table<S>>, ledger: Ledger<S>,
                                                        s: S, k: nat)
    requires Shape(P, origin, tables, ledger) && Monotone(P, tables) && Gated(tables, ledger) && LinksExplain(P, tables, ledger)
    requires s in P.stops && k < |tables| && tables[k][s].At?
    ensures TraceBack(ledger, s, k).Success?
    ensures var legs := TraceBack(ledger, s, k).value;
      && (legs == [] ==> s == origin)
      && (legs != [] ==> legs[0].destination == s && legs[|legs| - 1].origin == origin)
      && ConnectedBackward(legs)
    decreases k
  {
    match LastLink(ledger[s], k)
    case None =>
      Unimproved(P, origin, tables, ledger, s, k);
    case Some(j) =>
      LinkSource(P, tables, ledger, s, j);
      TraceBackSucceeds(P, origin, tables, ledger, LinkFrom(ledger[s][j]), j - 1);
      TraceStep(ledger, origin, s, k, j);
  }

  /** The corrected journey of every round that improved `dest` exists, has at
      most that many legs, leaves from the origin, arrives at `dest`, and its
      consecutive legs connect. */
  lemma {:induction false} TraceJourneyShape<R(!new), S(!new)>(P: Providers<R, S>, origin: S, tables: seq<Table<S>>, ledger: Ledger<S>,
                                                        dest: S, k: nat)
    requires Shape(P, origin, tables, ledger) && Monotone(P, tables) && Gated(tables, ledger) && LinksExplain(P, tables, ledger)
    requires dest in P.stops && k in ledger[dest]
    ensures TraceJourney(ledger, dest, k).Success?
    ensures var legs := TraceJourney(ledger, dest, k).value.legs;
      1 <= |legs| <= k && legs[0].origin == origin && legs[|legs| - 1].destination == dest && Connected(legs)
  {
    assert 1 <= k < |tables|;
    assert Explains(P, tables[k - 1], dest, tables[k][dest], ledger[dest][k]);
    TraceBackSucceeds(P, origin, tables, ledger, dest, k);
    var back := TraceBack(ledger, dest, k).value;
    assert LastLink(ledger[dest], k) == Some(k);
    assert back != [];
  }

  /** Wherever the walk as written completes on a ledger the round loop
      built, the corrected walk meets the same links and returns the same legs. */
  lemma {:induction false} WalksAgree<R(!new), S(!new)>(P: Providers<R, S>, origin: S, tables: seq<Table<S>>, ledger: Ledger<S>,
                                                 s: S, k: nat)
    requires Shape(P, origin, tables, ledger) && Gated(tables, ledger) && LinksExplain(P, tables, ledger)
    requires s in P.stops && BackwardLegs(ledger, s, k).Success?
    ensures TraceBack(ledger, s, k) == BackwardLegs(ledger, s, k)
    decreases k
  {
    if k > 0 {
      var c := ledger[s][k];
      assert Explains(P, tables[k - 1], s, tables[k][s], c);
      assert LastLink(ledger[s], k) == Some(k);
      var from := if c.Transfer? then c.origin else c.trip.stopTimes[c.boardingPoint].stop;
      WalksAgree(P, origin, tables, ledger, from, k - 1);
    }
  }

  /** The corrected journey equals the journey as written wherever the latter exists. */
  lemma JourneysAgree<R(!new), S(!new)>(P: Providers<R, S>, origin: S, tables: seq<Table<S>>, ledger: Ledger<S>, dest: S, k: nat)
    requires Shape(P, origin, tables, ledger) && Gated(tables, ledger) && LinksExplain(P, tables, ledger)
    requires dest in P.stops && Reconstruct(ledger, dest, k).Success?
    ensures TraceJourney(ledger, dest, k) == Reconstruct(ledger, dest, k)
  {
    WalksAgree(P, origin, tables, ledger, dest, k);
  }

  /** One journey per round key of the destination's ledger slot, in no
      particular order, rebuilt by the corrected walk; `rounds[i]` is the
      round whose journey is `r.value[i]`. Fails as a whole when any walk fails. */
  method GetJourneys<S(==)>(ledger: Ledger<S>, dest: S) returns (r: Result<seq<Journey<S>>, PlanError<S>>, rounds: seq<nat>)
    ensures dest !in ledger ==> r == Failure(UnknownDestination(dest))
    ensures r.Success? ==> dest in ledger && |r.value| == |rounds| == |ledger[dest].Keys|
    ensures r.Success? ==> forall i :: 0 <= i < |rounds| ==>
      rounds[i] in ledger[dest] && TraceJourney(ledger, dest, rounds[i]) == Success(r.value[i])
    ensures r.Success? ==> Distinct(rounds) && forall k :: k in ledger[dest] ==> k in rounds
    ensures dest in ledger && (forall k :: k in ledger[dest] ==> TraceJourney(ledger, dest, k).Success?) ==> r.Success?
    ensures r.Failure? && dest in ledger ==> exists k :: k in ledger[dest] && TraceJourney(ledger, dest, k) == Failure(r.error)
  {
    rounds := [];
    if dest !in ledger {
      return Failure(UnknownDestination(dest)), rounds;
    }
    var keys := ledger[dest].Keys;
    var remaining := keys;
    var journeys: seq<Journey<S>> := [];
    while remaining != {}
      invariant remaining <= keys
      invariant |journeys| == |rounds| && |rounds| + |remaining| == |keys|
      invariant forall i :: 0 <= i < |rounds| ==>
        rounds[i] in keys && rounds[i] !in remaining && TraceJourney(ledger, dest, rounds[i]) == Success(journeys[i])
      invariant forall k :: k in keys ==> k in remaining || k in rounds
      invariant Distinct(rounds)
      decreases remaining
    {
      var k :| k in remaining;
      var j := TraceJourney(ledger, dest, k);
      if j.Failure? {
        return Failure(j.error), rounds;
      }
      journeys := journeys + [j.value];
      rounds := rounds + [k];
      remaining := remaining - {k};
    }
    return Success(journeys), rounds;
  }
}
