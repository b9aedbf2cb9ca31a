# RAPTOR journey planner — a Dafny model

This project models the round-based public-transit planner `Raptor.plan(origin,
destination, date)`. Given a departure instant, the planner computes, for
k = 0, 1, 2, …, the best arrival at every stop that its rounds find using at
most k rides or walking transfers, and records a parent link for each
improvement. It then walks those links backward from the destination to
produce one journey for every round that improved the destination.

That best arrival is not always the earliest one reachable with k rides. A
route scan changes trips only where the previous round reaches the stop
strictly before the held trip's arrival there (Raptor.java:95), so it keeps a
slower trip when the previous round reaches the stop at the very minute that
trip does. On the witness network, TripA
then Fast reaches D at minute 10 with two rides, yet round 2 keeps Slow at P
(7 is not before 7) and reaches D only at minute 30
(`MissingLinkWitness.TwoRidesSooner`, `MissingLinkWitness.Round2`); round 3
finds minute 10. The model states what the code computes: every arrival is
explained by a recorded ride or walk, and every ride or walk the scan actually
considers is relaxed.

The model follows the planner's six parts:

- **Arrival table** (`Tables`): round 0, the round-indexed tables, the parent-link ledger, and the
  one primitive (`Improve`) that commits a strictly earlier arrival, writes its link and marks its stop.
- **Route queue** (`RouteQueue`): for every route serving a marked stop, the marked stop that
  comes first along that route.
- **Route scan** (`RouteScan`): walk each queued route from its queued stop. Alight from the held
  trip where it beats the current round's arrival. Re-board, or drop the held trip, where the
  previous round reaches the stop strictly before the held trip does.
- **Transfer phase** (`TransferRelax`): walk every transfer leaving a stop marked in the previous
  round, starting from that stop's previous-round arrival.
- **Round loop** (`Rounds`, `RoundDriver`): one round, and the loop that runs rounds while the
  last round marked a stop, together with the invariant it keeps.
- **Journey reconstruction** (`Journeys`, `Raptor`): the backward walk, the reversal into travel
  order, and the public `Plan` operation. The walk is modelled twice: as written, and corrected (see
  "Findings"). `Plan` uses the corrected walk.
- **Witness** (`MissingLinkWitness`): a six-stop network on which a planning call succeeds, the walk
  as written meets a missing link, and the corrected walk rebuilds the journey.

The stop, route, trip and transfer lookups are a `Network.Providers` value of total functions.
The answers the planner relies on are stated by `Network.Consistent`:

- a route serving a stop has it on its path at the reported index;
- `isStopBefore` is the order of path positions;
- a returned trip calls at the route's path, position by position, and does not depart before the
  requested instant;
- transfers lead to known stops.

Instants are whole minutes, plus an `Infinity` value that stands for `LocalDateTime.MAX`.
Hash-set and hash-map enumerations are duplicate-free sequences. The marked set and the route
queue are kept in insertion order (`Collections.AddAbsent`, `RouteQueue.OfferRoutes`); the stop,
route and transfer lookups return whatever order the network gives. No proved property depends on
either order.

## Model

| member | source | states |
|---|---|---|
| Tables.CreateKArrivals | src/main/java/com/raoulvdberge/raptor/Raptor.java:141-153 | round 0 has an entry for exactly the known stops and the origin; the origin gets the departure instant and every other stop is unreached (Infinity) |
| Tables.CreateKConnections | src/main/java/com/raoulvdberge/raptor/Raptor.java:132-139 | the ledger has a slot for exactly the known stops, and every slot starts with no round key |
| Tables.Improve | src/main/java/com/raoulvdberge/raptor/Raptor.java:84-92 | a candidate strictly earlier than the current value becomes the stop's arrival and its round-k link, and the stop is marked; otherwise nothing changes; other stops and other rounds of the ledger are untouched |
| Collections.AddAbsent | src/main/java/com/raoulvdberge/raptor/Raptor.java:92 | adding to the new marked set keeps it duplicate-free, keeps every earlier element in place, and adds exactly the given stop |
| RouteQueue.OfferRoutes | src/main/java/com/raoulvdberge/raptor/Raptor.java:159-163 | after offering a stop's routes, each of them is queued at a stop no later on its path than the offered one; entries only move to earlier path positions; every queued stop is known and served by its route |
| RouteQueue.OfferStops | src/main/java/com/raoulvdberge/raptor/Raptor.java:158-164 | after offering every marked stop, every route of every marked stop is queued at a stop no later on its path than that stop, and each queued stop is one of the marked stops or the one queued before |
| RouteQueue.GetQueue | src/main/java/com/raoulvdberge/raptor/Raptor.java:155-167 | one stop per route; each queued stop is marked, served by its route at the reported index; every route of a marked stop is queued; and no marked stop serving the route is strictly before the queued one |
| RouteScan.Alight | src/main/java/com/raoulvdberge/raptor/Raptor.java:84-93 | the only change is at the current path position; when the held trip reaches that stop strictly before the round's current value, that arrival is committed with a round-k ride link from the held trip's boarding point to here; otherwise nothing changes; every change is a ride boarded with the previous round's arrival |
| RouteScan.Reboard | src/main/java/com/raoulvdberge/raptor/Raptor.java:95-103 | when no trip is held or the previous round reaches the stop strictly before the held trip does, the held trip becomes the trip lookup's answer for this position queried with the previous round's arrival there, boarded here, or none when the lookup has none; otherwise the held trip is kept; either way the held trip came from such a lookup at a position already scanned |
| RouteScan.ScanRoute | src/main/java/com/raoulvdberge/raptor/Raptor.java:81-104 | the scan of one route only lowers arrivals, writes only round k, marks exactly the lowered stops; every lowered stop is explained by a ride with start <= boarding point < stop index < path length, boarded with the previous round's arrival; and afterwards no stop from the start on is later than the arrival of the trip held when the scan passed it |
| RouteScan.ScanQueue | src/main/java/com/raoulvdberge/raptor/Raptor.java:72-105 | scanning the queued routes in enumeration order keeps the same guarantees; each lowered stop is explained by a ride on one of the queued routes boarded no earlier than its queued stop; and afterwards every queued route's stops are no later than the trip held when its scan passed them |
| TransferRelax.RelaxEdges | src/main/java/com/raoulvdberge/raptor/Raptor.java:108-123 | relaxing one stop's transfers only lowers arrivals; every lowered stop records a walk from that stop along one of its edges, arriving at the previous round's arrival there plus the edge's duration; and afterwards every edge's destination is no later than that sum |
| TransferRelax.RelaxFrontier | src/main/java/com/raoulvdberge/raptor/Raptor.java:107-124 | relaxing the transfers of the previous round's marked stops: every stop lowered by this phase records a walk whose origin is one of those marked stops, and afterwards no transfer of any of them would lower its destination further |
| Rounds.Round | src/main/java/com/raoulvdberge/raptor/Raptor.java:66-124 | one round: arrivals never rise; the ledger changes only at round k; a stop gets a round-k link exactly when its arrival fell strictly below the previous round's; the new marked set is exactly those stops; every link explains its arrival, a ride only from a boarding stop the previous round reached no later than the trip leaves it; walks start at previously marked stops; rides come from queued routes; and in the new table every queued ride and every transfer of a marked stop is relaxed |
| Rounds.RoundCorrect | src/main/java/com/raoulvdberge/raptor/Raptor.java:66-124 | composing the route scan and the transfer phase gives the round invariant above |
| RoundDriver.FrontierReached | src/main/java/com/raoulvdberge/raptor/Raptor.java:107-110 | every stop marked by the last round has a real (finite) arrival in it, so adding a transfer duration to it is defined |
| RoundDriver.AgreeFromRound | src/main/java/com/raoulvdberge/raptor/Raptor.java:86 | a round leaves every other round's ledger entries as they were |
| RoundDriver.Advance | src/main/java/com/raoulvdberge/raptor/Raptor.java:65-70 | a non-empty marked set lets the next round start and the round keeps the loop invariant |
| RoundDriver.RoundKeepsInvariant | src/main/java/com/raoulvdberge/raptor/Raptor.java:65-127 | the loop invariant (shape, monotone, gated, linked, marked set, justified) survives one more round |
| RoundDriver.NextShape | src/main/java/com/raoulvdberge/raptor/Raptor.java:70 | the new round's table covers exactly the known stops, and no stop's arrival in it is later than in the round before |
| RoundDriver.NextGated | src/main/java/com/raoulvdberge/raptor/Raptor.java:84-92 | after the round, a stop has a round-j link exactly when round j strictly lowered it, for every completed round j, and the new marked set is exactly the stops with a link of the new round |
| RoundDriver.NextLinked | src/main/java/com/raoulvdberge/raptor/Raptor.java:84-121 | every link of every completed round still explains that round's arrival, and every walk still starts at a stop marked in the round before |
| RoundDriver.NextExplain | src/main/java/com/raoulvdberge/raptor/Raptor.java:84-121 | links of earlier rounds still explain their arrivals, and the new round's links explain its arrivals |
| RoundDriver.NextWalks | src/main/java/com/raoulvdberge/raptor/Raptor.java:107-121 | a walk recorded in round j starts at a stop that round j - 1 marked |
| RoundDriver.NextJustified | src/main/java/com/raoulvdberge/raptor/Raptor.java:65 | every round after the first ran because the round before it marked a stop |
| RoundDriver.NextRound | src/main/java/com/raoulvdberge/raptor/Raptor.java:66-126 | running the next round on a non-empty marked set keeps the loop invariant, its marked set becomes the next frontier, and if every earlier round was relaxed against the round before it, so is the new one |
| RoundDriver.RoundKeepsRelaxed | src/main/java/com/raoulvdberge/raptor/Raptor.java:65-127 | one more round keeps every completed round relaxed against the round before it, its queued rides and its marked stops' transfers included |
| RoundDriver.Run | src/main/java/com/raoulvdberge/raptor/Raptor.java:65-127 | the loop returns at once on an empty marked set; it stops only with an empty marked set and the invariant holding, after at most the given number of rounds; it reports RoundLimit exactly when the last of those rounds still marked a stop; and it keeps every round relaxed against the round before it |
| RoundDriver.MonotoneAcross | src/main/java/com/raoulvdberge/raptor/Raptor.java:70 | a stop's arrival never rises from any round to any later round |
| RoundDriver.MoreRoundsArriveEarlier | src/main/java/com/raoulvdberge/raptor/Raptor.java:84-85 | of two rounds that improved a stop, the later one reaches it strictly earlier |
| Journeys.BackwardLegs | src/main/java/com/raoulvdberge/raptor/Raptor.java:177-205 | the walk as written: a completed backward walk from round k has exactly k legs, and a failed one failed on a missing link or a position outside its trip |
| Journeys.Reconstruct | src/main/java/com/raoulvdberge/raptor/Raptor.java:173-209 | the journey as written exists exactly when the backward walk completes; it has k legs; a failure is a missing link or a bad position |
| Journeys.BackwardShape | src/main/java/com/raoulvdberge/raptor/Raptor.java:177-205 | over a ledger the round loop built, a completed walk as written ends at the requested stop, starts at the origin, and each leg starts where the next one ends |
| Journeys.JourneyShape | src/main/java/com/raoulvdberge/raptor/Raptor.java:207 | after the reversal, a journey as written leaves from the origin, arrives at the destination, and each leg ends where the next begins |
| Journeys.LastLink | src/main/java/com/raoulvdberge/raptor/Raptor.java:178 | the latest round in 1..k with a link for the stop; no later round up to k has one; None exactly when no round in 1..k has one |
| Journeys.TraceBack | src/main/java/com/raoulvdberge/raptor/Raptor.java:177-205 | a completed corrected walk from round k has at most k legs; a failed one failed on a missing link or a bad position, and a missing link names a stop outside the ledger |
| Journeys.TraceJourney | src/main/java/com/raoulvdberge/raptor/Raptor.java:207-209 | the journey fails exactly with the corrected walk's error; otherwise it has as many legs as the walk, at most k, leaves from where the walk's last leg starts, reaches where its first leg ends, and chains forward whenever the walk chains backward |
| Journeys.Unimproved | src/main/java/com/raoulvdberge/raptor/Raptor.java:84-85 | a stop no round in 1..k improved keeps its round-0 arrival up to round k |
| Journeys.TraceBackSucceeds | src/main/java/com/raoulvdberge/raptor/Raptor.java:177-205 | on a ledger the round loop built, the corrected walk from any stop reached by round k succeeds; it ends at the origin and its legs chain, the first one arriving at the stop |
| Journeys.RideCatchable | src/main/java/com/raoulvdberge/raptor/Raptor.java:84-102 | every ride the round loop recorded can be caught: the round before reached its boarding stop no later than the trip leaves there, and the trip reaches the linked stop at that stop's arrival in the ride's round |
| Journeys.TraceJourneyShape | src/main/java/com/raoulvdberge/raptor/Raptor.java:172-209 | for every round key of the destination, the corrected journey exists, has between 1 and k legs, leaves from the origin, reaches the destination and connects |
| Journeys.WalksAgree | src/main/java/com/raoulvdberge/raptor/Raptor.java:177-205 | wherever the walk as written completes on a ledger the round loop built, the corrected walk returns exactly the same legs |
| Journeys.JourneysAgree | src/main/java/com/raoulvdberge/raptor/Raptor.java:173-209 | wherever the journey as written exists, the corrected journey equals it |
| Journeys.GetJourneys | src/main/java/com/raoulvdberge/raptor/Raptor.java:169-213 | an unknown destination fails; otherwise one journey per round key of the destination's slot, each the corrected journey of a distinct key, covering every key; the call fails exactly when some key's walk fails, with that walk's error |
| Collections.Reverse | src/main/java/com/raoulvdberge/raptor/Raptor.java:207 | the reversed legs have the same length and position i holds the element at length - 1 - i |
| Raptor.SearchFrom | src/main/java/com/raoulvdberge/raptor/Raptor.java:58-127 | the round loop from round 0 with the origin marked ends with the invariant and an empty marked set after between 1 and maxRounds rounds; it reports RoundLimit exactly when round maxRounds still marked a stop; on success every round j is relaxed: no stop is later in it than a walk from a stop marked in round j - 1 or a ride on a route queued from those stops |
| Raptor.JourneysListed | src/main/java/com/raoulvdberge/raptor/Raptor.java:169-213 | the listed journeys are exactly the corrected journeys of the destination's round keys: every key's journey is listed, every listed journey is some key's, with at most that many legs, and each leaves from the origin, reaches the destination and connects |
| Raptor.JourneysSound | src/main/java/com/raoulvdberge/raptor/Raptor.java:169-213 | on a finished round loop, the corrected journey of every round that improved the destination exists, has between 1 and k legs, leaves from the origin, reaches the destination and connects |
| Raptor.Answer | src/main/java/com/raoulvdberge/raptor/Raptor.java:129 | on a finished search: an unknown destination fails, a known one succeeds; one journey per round key of the destination; each is that round's corrected journey, leaves from the origin, reaches the destination and connects |
| Raptor.Plan | src/main/java/com/raoulvdberge/raptor/Raptor.java:58-130 | the public operation: RoundLimit exactly when round maxRounds still marked a stop; otherwise an unknown destination is reported and a known one succeeds; one journey per improving round, each the corrected journey of that round, with at least one leg, leaving from the origin, reaching the destination and connecting; and the search behind the answer relaxes every ride and walk of every round |
| MissingLinkWitness.NetConsistent | src/main/java/com/raoulvdberge/raptor/Raptor.java:58-130 | the witness network's lookups meet every guarantee the planner relies on |
| MissingLinkWitness.Searched | src/main/java/com/raoulvdberge/raptor/Raptor.java:58-127 | on the witness network, planning from O at minute 0 with four rounds succeeds; P keeps only its round-1 link, and D has links from rounds 2 and 3, the round-3 ride boarded at P |
| MissingLinkWitness.BothWalks | src/main/java/com/raoulvdberge/raptor/Raptor.java:177-205 | on such a ledger, the walk as written from D at round 3 fails with a missing link for P at round 2, while the corrected walk returns the ride O to P then P to D |
| MissingLinkWitness.AsWrittenWalkFails | src/main/java/com/raoulvdberge/raptor/Raptor.java:172-209 | a planning call that succeeds, on a network meeting every guarantee, whose round-3 journey to D cannot be rebuilt by the walk as written but is rebuilt by the corrected walk |

## Left out

- The name-based `plan(String, String, LocalDateTime)` overload (Raptor.java:42-48) is not modelled. It only looks up stops by `toString`.
- The provider implementations, including `InMemoryTransferDetailsProvider`, are not modelled. The lookups are the function fields of `Network.Providers`, and their guarantees are the `Network.Consistent` predicates.
- `Route.java` is not modelled. Routes and stops are type parameters with equality.
- `LocalDateTime` calendar arithmetic is not modelled. Instants are integer minutes, so `plus` cannot overflow and there is no upper bound like `LocalDateTime.MAX`.
- The order of hash-set and hash-map iteration is not modelled. The enumerations are duplicate-free sequences in insertion order, and the proved properties hold for any order.
- Raptor.SearchFrom: termination of the round loop depends on the trip data, so the loop takes a round bound `maxRounds` and reports `RoundLimit` exactly when round `maxRounds` still marked a stop (`RoundDriver.MarkedAfter`, `Raptor.MarkedBy`). The source has no such bound.
- Journeys.RideCatchable: a recorded ride is shown catchable, not shown to be the trip lookup's answer for its route. The round that writes the link states that too (`RouteScan.BoardedOn` in `Rounds.Round`), but a link does not record its route, so the loop invariant keeps only the departure guarantee.
- Raptor.Plan: requires the origin to be a known stop. Round 0 (Raptor.java:150) enters the origin whether or not it is known, but the stop lookup enumerates every stop of the network, so the model takes the origin to be one of them and keeps every round table keyed by exactly the known stops.
- Raptor.Plan: uses the corrected walk of "Findings", so it returns a journey where the source would throw a null-pointer exception at line 180. Where the source's walk completes, both walks agree (`Journeys.WalksAgree`).
- Raptor.Plan: a ride link naming a position outside its trip is the `BadStopIndex` error, where the source would throw an index exception at lines 192-193. Under `Network.Consistent` this cannot happen for links the loop writes.
- Raptor.Plan: querying with the origin as the destination returns no trivial zero-leg journey. Round 0 writes no link, so every journey has at least one leg, and there is none unless a later round improves the origin.
- Journeys.GetJourneys: uses the corrected walk of "Findings" (`Journeys.TraceJourney`), not the walk as written, so it lists a journey where the source would throw at line 180; `Journeys.JourneysAgree` shows both give the same journey wherever the walk as written completes.
- The test helpers `TimeUtil` and `TripBuilderTestUtils` are not modelled. They read the wall clock.

## Findings

| source | as written | input that shows it | evidently intended | confidence | as-written member | corrected member |
|---|---|---|---|---|---|---|
| src/main/java/com/raoulvdberge/raptor/Raptor.java:177-205 | the backward walk looks up the link of the current stop at round k, then k - 1, and so on, one round per leg | the six-stop witness network, destination D, round 3: round 3 boards Fast at P, which the scan reached with its round-1 arrival carried into round 2, so P has no round-2 link and the lookup at line 178 returns null | follow, for each boarding stop, the link of the latest round no later than the round the ride left from; the walk then always reaches the origin | not executed | Journeys.Reconstruct, MissingLinkWitness.AsWrittenWalkFails | Journeys.TraceJourney, Journeys.TraceBackSucceeds |
