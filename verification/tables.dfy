/** The round-indexed arrival table and the connection ledger of one planning
    call, and the single primitive that changes them during a round. */
module Tables {
  import opened Times
  import opened Collections
  import opened Network

  /** A parent link: how a stop was reached in some round. */
  datatype Conn<S> =
    | Board(trip: Trip<S>, boardingPoint: nat, stopIndex: nat)
    | Transfer(origin: S, destination: S, duration: int, distance: int)

  /** Best known arrival per stop for one round. */
  type Table<S(==)> = map<S, Time>

  /** Per stop, the parent link of each round that improved it. */
  type Ledger<S(==)> = map<S, map<nat, Conn<S>>>

  /** The working state of round `k`: its arrival table, the ledger, and the
      stops marked so far in this round (a hash set, as an enumeration). */
  datatype RoundState<S(==)> = RoundState(arrivals: Table<S>, ledger: Ledger<S>, marked: seq<S>)

  /** Round 0: every stop unreached except the origin, reached at `departure`. */
  function CreateKArrivals<S(==, !new)>(stops: seq<S>, origin: S, departure: int): (t: Table<S>)
    ensures forall s :: s in t <==> s in stops || s == origin
    ensures t[origin] == At(departure)
    ensures forall s :: s in t && s != origin ==> t[s] == Infinity
  {
    (map s | s in stops :: Infinity)[origin := At(departure)]
  }

  /** The empty ledger: a slot for every stop, no link yet. */
  function CreateKConnections<S(==, !new)>(stops: seq<S>): (l: Ledger<S>)
    ensures forall s :: s in l <==> s in stops
    ensures forall s :: s in l ==> l[s].Keys == {}
  {
    map s | s in stops :: map[]
  }

  /** `s` is untouched from `st` to `r`. */
  ghost predicate Unchanged<S>(st: RoundState<S>, r: RoundState<S>, s: S)
    requires s in st.arrivals && s in st.ledger && s in r.arrivals && s in r.ledger
  {
    r.arrivals[s] == st.arrivals[s] && r.ledger[s] == st.ledger[s]
  }

  /** What any part of round `k` may do to the state: keep the same stops,
      only lower arrivals, write only round `k` of the ledger, and mark exactly
      the stops whose arrival it lowered. */
  ghost predicate Step<S(!new)>(k: nat, st: RoundState<S>, r: RoundState<S>) {
    && r.arrivals.Keys == st.arrivals.Keys
    && r.ledger.Keys == st.ledger.Keys
    && (forall s :: s in st.arrivals ==> NoLater(r.arrivals[s], st.arrivals[s]))
    && (forall s :: s in st.ledger ==> r.ledger[s] - {k} == st.ledger[s] - {k})
    && (forall s :: s in r.marked <==> s in st.marked || (s in st.arrivals && Before(r.arrivals[s], st.arrivals[s])))
    && (Distinct(st.marked) ==> Distinct(r.marked))
  }

  lemma {:induction false} StepTransitive<S(!new)>(k: nat, a: RoundState<S>, b: RoundState<S>, c: RoundState<S>)
    requires Step(k, a, b) && Step(k, b, c)
    ensures Step(k, a, c)
  {
    forall s | s in a.ledger
      ensures c.ledger[s] - {k} == a.ledger[s] - {k}
    {
      assert c.ledger[s] - {k} == b.ledger[s] - {k};
    }
  }

  /** Commit `candidate` as the arrival at `s` in round `k`, with parent link
      `c`, only when it is strictly earlier than the current value. */
  function Improve<S(==, !new)>(st: RoundState<S>, k: nat, s: S, candidate: Time, c: Conn<S>): (r: RoundState<S>)
    requires s in st.arrivals && s in st.ledger
    ensures Step(k, st, r)
    ensures forall x :: x in st.arrivals && x != s ==> r.arrivals[x] == st.arrivals[x]
    ensures forall x :: x in st.ledger && x != s ==> r.ledger[x] == st.ledger[x]
    ensures Before(candidate, st.arrivals[s]) ==> r.arrivals[s] == candidate && k in r.ledger[s] && r.ledger[s][k] == c
    ensures !Before(candidate, st.arrivals[s]) ==> r == st
  {
    if Before(candidate, st.arrivals[s]) then
      var links: map<nat, Conn<S>> := st.ledger[s][k := c];
      RoundState(st.arrivals[s := candidate], st.ledger[s := links], AddAbsent(st.marked, s))
    else
      st
  }
}
