/**
 * The in-memory bus registry `mockBuses`: bus registration number to
 * `{active, location}`. The operations here are the updates the session
 * applies to it and the lookup behind the passenger's search, written as
 * functions of the map; `Lookup` is the observation every update is related to.
 */
module Registry {
  import opened Wrappers
  import opened Text

  datatype Bus = Bus(active: bool, location: string)

  /** The simulated GPS positions. */
  const MockLocations: seq<string> := [
    "Main Street & 2nd Avenue",
    "City Center Bus Stop",
    "University Campus - Gate A",
    "Shopping Mall Entrance",
    "Central Park East",
    "Hospital District",
    "Railway Station Plaza"
  ]

  /** The location of the parked demo bus, which is not one of `MockLocations`. */
  const DepotLocation := "Bus Depot"

  /** The registry as the page loads it. */
  const InitialBuses: map<string, Bus> := map[
    "CT-1234" := Bus(true, "Main Street & 2nd Avenue"),
    "CT-5678" := Bus(true, "University Campus - Gate A"),
    "CT-9012" := Bus(false, DepotLocation)
  ]

  /** A registration number as the forms store it: upper-cased and non-empty. */
  predicate IsBusId(id: string) {
    id != [] && NoLowerCase(id)
  }

  /** Every key is a stored registration number and every location a known one. */
  predicate WellFormed(buses: map<string, Bus>) {
    forall id :: id in buses ==>
      IsBusId(id) && (buses[id].location in MockLocations || buses[id].location == DepotLocation)
  }

  lemma InitialWellFormed()
    ensures WellFormed(InitialBuses)
  {
  }

  /**
   * `Math.floor(Math.random() * n)` for a random number `rand` in [0, 1):
   * always an index of a sequence of length `n`.
   */
  function RandomIndex(rand: real, n: nat): (i: nat)
    requires 0.0 <= rand < 1.0 && n > 0
    ensures i < n
  {
    var x := rand * n as real;
    assert n as real - x == (1.0 - rand) * n as real > 0.0;
    assert x.Floor as real <= x < n as real;
    x.Floor
  }

  /** A random pick from `MockLocations`. */
  function RandomLocation(rand: real): (loc: string)
    requires 0.0 <= rand < 1.0
    ensures loc in MockLocations
  {
    MockLocations[RandomIndex(rand, |MockLocations|)]
  }

  /**
   * The key JavaScript uses for `mockBuses[activeBus]`: a `null` bus number
   * is converted to the property name "null".
   */
  function KeyOf(activeBus: Option<string>): (k: string)
    ensures activeBus.Some? ==> k == activeBus.value
    ensures activeBus.None? ==> !IsBusId(k)
  {
    if activeBus.Some? then activeBus.value
    else assert IsLower("null"[0]); "null"
  }

  /** No registration number is "null": its letters are lower case. */
  lemma NullKeyAbsent(buses: map<string, Bus>)
    requires WellFormed(buses)
    ensures KeyOf(None) !in buses
  {
    assert IsLower("null"[0]);
  }

  /**
   * The upsert at the end of `startTrip`: a new record is active at the first
   * mock location; an existing one becomes active and keeps its location.
   */
  function Activate(buses: map<string, Bus>, id: string): (r: map<string, Bus>)
    ensures r.Keys == buses.Keys + {id}
    ensures r[id].active
    ensures id in buses ==> r[id].location == buses[id].location
    ensures id !in buses ==> r[id].location == MockLocations[0]
    ensures forall k :: k in buses && k != id ==> r[k] == buses[k]
  {
    if id !in buses then buses[id := Bus(true, MockLocations[0])]
    else buses[id := buses[id].(active := true)]
  }

  /** The write in `updateLocation`: only an existing record moves. */
  function Relocate(buses: map<string, Bus>, id: string, loc: string): (r: map<string, Bus>)
    ensures r.Keys == buses.Keys
    ensures id in buses ==> r[id] == Bus(buses[id].active, loc)
    ensures forall k :: k in buses && k != id ==> r[k] == buses[k]
  {
    if id in buses then buses[id := buses[id].(location := loc)] else buses
  }

  /** The write in `stopTrip`, `logout` and `beforeunload`: only an existing record stops. */
  function Deactivate(buses: map<string, Bus>, id: string): (r: map<string, Bus>)
    ensures r.Keys == buses.Keys
    ensures id in buses ==> r[id] == Bus(false, buses[id].location)
    ensures forall k :: k in buses && k != id ==> r[k] == buses[k]
  {
    if id in buses then buses[id := buses[id].(active := false)] else buses
  }

  /** What a passenger can see of a bus: its location if it has a record that is active. */
  function Lookup(buses: map<string, Bus>, id: string): (r: Option<string>)
    ensures r.Some? <==> id in buses && buses[id].active
    ensures r.Some? ==> r.value == buses[id].location
  {
    if id in buses && buses[id].active then Some(buses[id].location) else None
  }

  /** The three outcomes of the search form. */
  datatype SearchOutcome =
    | Ignored                                // empty query: nothing happens
    | Found(id: string, location: string)    // the results screen is shown
    | NotFound(id: string)                   // the "not found or not active" alert

  /** `handleBusSearch` without the DOM: upper-case the query and look it up. */
  function Search(buses: map<string, Bus>, query: string): (o: SearchOutcome)
    ensures o.Ignored? <==> query == []
    ensures o.Found? <==> query != [] && ToUpper(query) in buses && buses[ToUpper(query)].active
    ensures o.Found? ==> o.id == ToUpper(query) && o.location == buses[o.id].location
    ensures o.NotFound? ==> o.id == ToUpper(query)
  {
    var id := ToUpper(query);
    if id == [] then Ignored
    else match Lookup(buses, id)
      case Some(loc) => Found(id, loc)
      case None => NotFound(id)
  }

  /** The search ignores case: a query and its upper-case form find the same thing. */
  lemma SearchIgnoresCase(buses: map<string, Bus>, query: string)
    ensures Search(buses, query) == Search(buses, ToUpper(query))
  {
    ToUpperIdempotent(query);
  }

  /** A passenger who types a demo bus number in lower case finds its record. */
  lemma SearchFindsLowerCase()
    ensures Search(InitialBuses, "ct-1234") == Found("CT-1234", "Main Street & 2nd Avenue")
  {
    assert ToUpper("ct-1234") == "CT-1234";
  }

  /** A started bus is found, and no other bus's visibility changes. */
  lemma LookupAfterActivate(buses: map<string, Bus>, id: string, other: string)
    requires other != id
    ensures Lookup(Activate(buses, id), id).Some?
    ensures Lookup(Activate(buses, id), other) == Lookup(buses, other)
  {
  }

  /** A stopped bus is not found, and no other bus's visibility changes. */
  lemma LookupAfterDeactivate(buses: map<string, Bus>, id: string, other: string)
    requires other != id
    ensures Lookup(Deactivate(buses, id), id) == None
    ensures Lookup(Deactivate(buses, id), other) == Lookup(buses, other)
  {
  }

  /** A move is seen by a passenger exactly when the bus is visible. */
  lemma LookupAfterRelocate(buses: map<string, Bus>, id: string, loc: string, other: string)
    requires other != id
    ensures Lookup(Relocate(buses, id, loc), id) == if Lookup(buses, id).Some? then Some(loc) else None
    ensures Lookup(Relocate(buses, id, loc), other) == Lookup(buses, other)
  {
  }

  /** Stopping a bus that was started from the stopped state restores the registry. */
  lemma DeactivateUndoesActivate(buses: map<string, Bus>, id: string)
    requires id in buses && !buses[id].active
    ensures Deactivate(Activate(buses, id), id) == buses
  {
    var r := Deactivate(Activate(buses, id), id);
    assert r.Keys == buses.Keys;
    assert r[id] == buses[id];
  }

  /** Stopping twice is stopping once. */
  lemma DeactivateIdempotent(buses: map<string, Bus>, id: string)
    ensures Deactivate(Deactivate(buses, id), id) == Deactivate(buses, id)
  {
  }

  /**
   * The whole effect of `startTrip` on the registry: it first moves the bus
   * (`updateLocation`, a no-op for a bus without a record) and then upserts it.
   * A bus seen before is therefore active at the random location, a new one at
   * the first mock location.
   */
  lemma StartTripEffect(buses: map<string, Bus>, id: string, loc: string)
    ensures Activate(Relocate(buses, id, loc), id)
      == buses[id := Bus(true, if id in buses then loc else MockLocations[0])]
  {
  }

  /** The updates keep registration numbers stored and locations known. */
  lemma ActivatePreservesWellFormed(buses: map<string, Bus>, id: string)
    requires WellFormed(buses) && IsBusId(id)
    ensures WellFormed(Activate(buses, id))
  {
  }

  lemma RelocatePreservesWellFormed(buses: map<string, Bus>, id: string, loc: string)
    requires WellFormed(buses) && loc in MockLocations
    ensures WellFormed(Relocate(buses, id, loc))
  {
  }

  lemma DeactivatePreservesWellFormed(buses: map<string, Bus>, id: string)
    requires WellFormed(buses)
    ensures WellFormed(Deactivate(buses, id))
  {
  }
}
