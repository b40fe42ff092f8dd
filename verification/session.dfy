/**
 * The page's module-level state and the event handlers that change it: the
 * registry `mockBuses`, the session globals `currentUser`, `currentRole`,
 * `activeBus` and `tripStartTime`, the three interval timers as on/off flags,
 * and the visible screen. Random numbers and clock readings are parameters.
 */
module Session {
  import opened Wrappers
  import opened Text
  import opened Registry
  import opened Login
  import opened TripDuration

  datatype Screen =
    | Welcome
    | DriverLoginScreen
    | PassengerLoginScreen
    | DriverDashboard
    | DriverTracking
    | PassengerSearch
    | BusResults

  class App {
    var buses: map<string, Bus>
    var currentUser: Option<User>
    var currentRole: Option<Role>
    var activeBus: Option<string>
    /** Milliseconds since the epoch when the trip started. */
    var tripStartTime: Option<nat>
    /** `tripTimer` (the trip clock) is set. */
    var tripTimerOn: bool
    /** `locationUpdateTimer` (the simulated GPS) is set. */
    var locationTimerOn: bool
    /** `window.currentPassengerTimer` (the passenger's live view) is set. */
    var passengerTimerOn: bool
    var screen: Screen

    /**
     * The registry is well formed; a running trip has a stored registration
     * number that has a record, a start time and both trip timers; no trip
     * means neither.
     */
    ghost predicate Valid()
      reads this
    {
      && WellFormed(buses)
      && (activeBus.Some? ==> IsBusId(activeBus.value) && activeBus.value in buses)
      && (tripStartTime.Some? <==> activeBus.Some?)
      && tripTimerOn == activeBus.Some?
      && locationTimerOn == activeBus.Some?
    }

    /** The state after the script loads and `initializeApp` runs. */
    constructor ()
      ensures Valid()
      ensures buses == InitialBuses
      ensures currentUser == None && currentRole == None
      ensures activeBus == None && tripStartTime == None
      ensures !tripTimerOn && !locationTimerOn && !passengerTimerOn
      ensures screen == Welcome
    {
      buses := InitialBuses;
      currentUser, currentRole := None, None;
      activeBus, tripStartTime := None, None;
      tripTimerOn, locationTimerOn, passengerTimerOn := false, false, false;
      screen := Welcome;
      InitialWellFormed();
    }

    /** The "driver" and "passenger" buttons of the welcome screen. */
    method SelectRole(role: Role)
      requires Valid()
      modifies this
      ensures Valid()
      ensures currentRole == Some(role)
      ensures screen == (if role == Driver then DriverLoginScreen else PassengerLoginScreen)
      ensures buses == old(buses) && currentUser == old(currentUser)
      ensures activeBus == old(activeBus) && tripStartTime == old(tripStartTime)
      ensures tripTimerOn == old(tripTimerOn) && locationTimerOn == old(locationTimerOn)
      ensures passengerTimerOn == old(passengerTimerOn)
    {
      currentRole := Some(role);
      screen := if role == Driver then DriverLoginScreen else PassengerLoginScreen;
    }

    /** The two "back" buttons of the login screens. */
    method BackToWelcome()
      requires Valid()
      modifies this
      ensures Valid()
      ensures currentRole == None && screen == Welcome
      ensures buses == old(buses) && currentUser == old(currentUser)
      ensures activeBus == old(activeBus) && tripStartTime == old(tripStartTime)
      ensures tripTimerOn == old(tripTimerOn) && locationTimerOn == old(locationTimerOn)
      ensures passengerTimerOn == old(passengerTimerOn)
    {
      currentRole := None;
      screen := Welcome;
    }

    /**
     * `handleDriverLogin` and `handlePassengerLogin`: a non-empty email and
     * password log the user in with the form's role and show that role's
     * next screen; otherwise nothing changes. `currentRole` is not touched.
     */
    method LogIn(email: string, password: string, role: Role)
      requires Valid()
      modifies this
      ensures Valid()
      ensures var u := MockLogin(email, password, role);
        if u.None? then unchanged(this)
        else
          && currentUser == u
          && screen == (if role == Driver then DriverDashboard else PassengerSearch)
          && currentRole == old(currentRole) && buses == old(buses)
          && activeBus == old(activeBus) && tripStartTime == old(tripStartTime)
          && tripTimerOn == old(tripTimerOn) && locationTimerOn == old(locationTimerOn)
          && passengerTimerOn == old(passengerTimerOn)
    {
      var u := MockLogin(email, password, role);
      if u.Some? {
        currentUser := u;
        screen := if role == Driver then DriverDashboard else PassengerSearch;
      }
    }

    /**
     * `updateLocation`, run by the location timer: the record of the active
     * bus, if there is one, moves to a random mock location. With no active
     * bus JavaScript looks up the key "null", which no record has.
     */
    method UpdateLocation(rand: real)
      requires WellFormed(buses) && 0.0 <= rand < 1.0
      modifies this`buses
      ensures WellFormed(buses)
      ensures old(Valid()) ==> Valid()
      ensures buses == Relocate(old(buses), KeyOf(activeBus), RandomLocation(rand))
      ensures activeBus == None ==> buses == old(buses)
    {
      var randomLocation := RandomLocation(rand);
      var key := KeyOf(activeBus);
      NullKeyAbsent(buses);
      RelocatePreservesWellFormed(buses, key, randomLocation);
      if key in buses {
        buses := buses[key := buses[key].(location := randomLocation)];
      }
    }

    /**
     * `startTrip`, called by the registration handler once `activeBus` is
     * set: both timers start, the location is updated once, and the bus is
     * upserted as active.
     */
    method StartTrip(rand: real)
      requires WellFormed(buses) && activeBus.Some? && IsBusId(activeBus.value)
      requires 0.0 <= rand < 1.0
      modifies this
      ensures activeBus == old(activeBus) && WellFormed(buses) && activeBus.value in buses
      ensures tripTimerOn && locationTimerOn
      ensures buses == Activate(Relocate(old(buses), activeBus.value, RandomLocation(rand)), activeBus.value)
      ensures currentUser == old(currentUser) && currentRole == old(currentRole)
      ensures tripStartTime == old(tripStartTime)
      ensures passengerTimerOn == old(passengerTimerOn) && screen == old(screen)
    {
      tripTimerOn := true;
      UpdateLocation(rand);
      locationTimerOn := true;
      var id := activeBus.value;
      ActivatePreservesWellFormed(buses, id);
      if id !in buses {
        buses := buses[id := Bus(true, MockLocations[0])];
      } else {
        buses := buses[id := buses[id].(active := true)];
      }
    }

    /**
     * `handleBusRegistration`: the entered number is upper-cased; a non-empty
     * one becomes the active bus, the trip starts at `now` and the tracking
     * screen is shown. An empty one changes nothing.
     */
    method RegisterBus(busNumber: string, now: nat, rand: real)
      requires Valid() && 0.0 <= rand < 1.0
      modifies this
      ensures Valid()
      ensures var id := ToUpper(busNumber);
        if id == [] then unchanged(this)
        else
          && activeBus == Some(id) && tripStartTime == Some(now)
          && tripTimerOn && locationTimerOn && screen == DriverTracking
          && buses == Activate(Relocate(old(buses), id, RandomLocation(rand)), id)
          && currentUser == old(currentUser) && currentRole == old(currentRole)
          && passengerTimerOn == old(passengerTimerOn)
    {
      var id := ToUpper(busNumber);
      if id != [] {
        activeBus := Some(id);
        tripStartTime := Some(now);
        StartTrip(rand);
        screen := DriverTracking;
      }
    }

    /**
     * `updateTripDuration`: the clock text at time `now`, or `None` (the early
     * return) when no trip runs. What the text says is
     * stated by `FormatDuration`.
     */
    function TripDurationText(now: nat): (text: Option<string>)
      reads this
      requires tripStartTime.Some? ==> tripStartTime.value <= now
      ensures text.None? <==> tripStartTime.None?
      ensures text.Some? ==> |text.value| >= 8
      ensures text.Some? ==> text.value == FormatDuration(now - tripStartTime.value)
    {
      if tripStartTime.None? then None else Some(FormatDuration(now - tripStartTime.value))
    }

    /**
     * `stopTrip`: the timers stop, the record of the active bus (if any)
     * becomes inactive with its location kept, the trip is reset and the
     * dashboard is shown.
     */
    method StopTrip()
      requires Valid()
      modifies this
      ensures Valid()
      ensures buses == Deactivate(old(buses), KeyOf(old(activeBus)))
      ensures old(activeBus) == None ==> buses == old(buses)
      ensures activeBus == None && tripStartTime == None
      ensures !tripTimerOn && !locationTimerOn
      ensures screen == DriverDashboard
      ensures currentUser == old(currentUser) && currentRole == old(currentRole)
      ensures passengerTimerOn == old(passengerTimerOn)
    {
      tripTimerOn := false;
      locationTimerOn := false;
      var key := KeyOf(activeBus);
      NullKeyAbsent(buses);
      DeactivatePreservesWellFormed(buses, key);
      if key in buses {
        buses := buses[key := buses[key].(active := false)];
      }
      activeBus := None;
      tripStartTime := None;
      screen := DriverDashboard;
    }

    /**
     * `handleBusSearch`: a found bus shows the results screen and starts the
     * passenger's live view; otherwise (the alert, or an empty query) nothing
     * changes. The registry is never modified.
     */
    method SearchBus(query: string) returns (outcome: SearchOutcome)
      requires Valid()
      modifies this
      ensures Valid()
      ensures outcome == Search(buses, query)
      ensures outcome.Found? <==> query != [] && Lookup(buses, ToUpper(query)).Some?
      ensures if outcome.Found? then screen == BusResults && passengerTimerOn
              else screen == old(screen) && passengerTimerOn == old(passengerTimerOn)
      ensures buses == old(buses) && currentUser == old(currentUser) && currentRole == old(currentRole)
      ensures activeBus == old(activeBus) && tripStartTime == old(tripStartTime)
      ensures tripTimerOn == old(tripTimerOn) && locationTimerOn == old(locationTimerOn)
    {
      var busNumber := ToUpper(query);
      outcome := Search(buses, query);
      if busNumber != [] {
        if busNumber in buses && buses[busNumber].active {
          passengerTimerOn := true;
          screen := BusResults;
        }
      }
    }

    /**
     * `logout`: every timer stops, the active bus (if any) becomes inactive,
     * and the user, role and trip are reset to the welcome screen.
     */
    method LogOut()
      requires Valid()
      modifies this
      ensures Valid()
      ensures buses == if old(activeBus).Some? then Deactivate(old(buses), old(activeBus).value) else old(buses)
      ensures currentUser == None && currentRole == None
      ensures activeBus == None && tripStartTime == None
      ensures !tripTimerOn && !locationTimerOn && !passengerTimerOn
      ensures screen == Welcome
    {
      tripTimerOn := false;
      locationTimerOn := false;
      passengerTimerOn := false;
      if activeBus.Some? && activeBus.value in buses {
        var id := activeBus.value;
        DeactivatePreservesWellFormed(buses, id);
        buses := buses[id := buses[id].(active := false)];
      }
      currentUser := None;
      currentRole := None;
      activeBus := None;
      tripStartTime := None;
      screen := Welcome;
    }

    /**
     * The `beforeunload` handler: the active bus (if any) becomes inactive;
     * nothing else changes.
     */
    method BeforeUnload()
      requires Valid()
      modifies this`buses
      ensures Valid()
      ensures buses == if activeBus.Some? then Deactivate(old(buses), activeBus.value) else old(buses)
    {
      if activeBus.Some? && activeBus.value in buses {
        var id := activeBus.value;
        DeactivatePreservesWellFormed(buses, id);
        buses := buses[id := buses[id].(active := false)];
      }
    }
  }

  /**
   * A driver starts the parked demo bus; a passenger then finds it at the
   * simulated position; once the driver stops, the passenger no longer finds it.
   */
  method DriverAndPassenger(rand: real)
    requires 0.0 <= rand < 1.0
  {
    var app := new App();
    ToUpperFixed("CT-9012");
    app.RegisterBus("CT-9012", 1000, rand);
    assert app.buses["CT-9012"] == Bus(true, RandomLocation(rand));
    var seen := app.SearchBus("CT-9012");
    assert seen == Found("CT-9012", RandomLocation(rand));
    app.StopTrip();
    assert app.buses["CT-9012"] == Bus(false, RandomLocation(rand));
    seen := app.SearchBus("CT-9012");
    assert seen == NotFound("CT-9012");
  }
}
