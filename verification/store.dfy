/** The in-memory store behind the application: the flights, passengers and
    tickets tables with their declared constraints, and the three operations that
    write to them (add a flight, add a passenger, book a ticket), each of which
    either commits one new row or rolls back and leaves every table as it was. */
module Store {
  import opened Results
  import opened Sequences
  import opened Domain

  /** The clock readings a booking request consults: `datetime.now()` as a day number
      and as a minute, and `datetime.utcnow()`, the default of a ticket's booked_at. */
  datatype Clock = Clock(today: int, now: int, utcNow: int)

  /** `timedelta(days=365*2)`: the minimum age, with no leap-year correction. */
  const MinAgeDays: int := 365 * 2

  // ---------------------------------------------------------------------------
  // Keys held by each table (what its primary-key and unique indexes contain)

  function FlightIds(flights: seq<Flight>): set<nat>
  {
    if |flights| == 0 then {} else FlightIds(flights[..|flights| - 1]) + {flights[|flights| - 1].id}
  }

  function FlightCodes(flights: seq<Flight>): set<string>
  {
    if |flights| == 0 then {} else FlightCodes(flights[..|flights| - 1]) + {flights[|flights| - 1].code}
  }

  function PassengerIds(passengers: seq<Passenger>): set<nat>
  {
    if |passengers| == 0 then {}
    else PassengerIds(passengers[..|passengers| - 1]) + {passengers[|passengers| - 1].id}
  }

  function Emails(passengers: seq<Passenger>): set<string>
  {
    if |passengers| == 0 then {}
    else Emails(passengers[..|passengers| - 1]) + {passengers[|passengers| - 1].email}
  }

  function Passports(passengers: seq<Passenger>): set<string>
  {
    if |passengers| == 0 then {}
    else Passports(passengers[..|passengers| - 1]) + {passengers[|passengers| - 1].passportNo}
  }

  /** The (passenger_id, flight_id) pairs in the `unique_passenger_flight` index. */
  function BookedPairs(tickets: seq<Ticket>): set<(nat, nat)>
  {
    if |tickets| == 0 then {}
    else
      var t := tickets[|tickets| - 1];
      BookedPairs(tickets[..|tickets| - 1]) + {(t.passengerId, t.flightId)}
  }

  /** `Flight.query.get(id)` on an id that is present. */
  function FlightWithId(flights: seq<Flight>, id: nat): (f: Flight)
    requires id in FlightIds(flights)
    ensures f in flights && f.id == id
  {
    var last := flights[|flights| - 1];
    if last.id == id then last else FlightWithId(flights[..|flights| - 1], id)
  }

  /** `Passenger.query.get(id)` on an id that is present. */
  function PassengerWithId(passengers: seq<Passenger>, id: nat): (p: Passenger)
    requires id in PassengerIds(passengers)
    ensures p in passengers && p.id == id
  {
    var last := passengers[|passengers| - 1];
    if last.id == id then last else PassengerWithId(passengers[..|passengers| - 1], id)
  }

  // ---------------------------------------------------------------------------
  // Table constraints, stated row by row in insertion order: each row, when it was
  // inserted, got the next auto-increment id and passed the table's constraints
  // against the rows before it.

  /** The flights table: increasing ids below `nextId`, the
      `check_arrival_after_departure` constraint and the unique flight code. */
  ghost predicate FlightTable(flights: seq<Flight>, nextId: nat)
  {
    |flights| == 0 ||
    var f := flights[|flights| - 1];
    var before := flights[..|flights| - 1];
    && FlightTable(before, f.id)
    && f.id < nextId
    && f.departureTime < f.arrivalTime
    && f.code !in FlightCodes(before)
  }

  /** The passengers table: increasing ids below `nextId`, unique email and passport. */
  ghost predicate PassengerTable(passengers: seq<Passenger>, nextId: nat)
  {
    |passengers| == 0 ||
    var p := passengers[|passengers| - 1];
    var before := passengers[..|passengers| - 1];
    && PassengerTable(before, p.id)
    && p.id < nextId
    && p.email !in Emails(before)
    && p.passportNo !in Passports(before)
  }

  /** The tickets table: increasing ids below `nextId`, foreign keys into the given
      flight and passenger ids, and the `unique_passenger_flight` constraint. */
  ghost predicate TicketTable(tickets: seq<Ticket>, nextId: nat, flightIds: set<nat>, passengerIds: set<nat>)
  {
    |tickets| == 0 ||
    var t := tickets[|tickets| - 1];
    var before := tickets[..|tickets| - 1];
    && TicketTable(before, t.id, flightIds, passengerIds)
    && t.id < nextId
    && t.flightId in flightIds
    && t.passengerId in passengerIds
    && (t.passengerId, t.flightId) !in BookedPairs(before)
  }

  /** Every stored value passed its validator when its entity was constructed. */
  ghost predicate FieldsValid(flights: seq<Flight>, passengers: seq<Passenger>)
  {
    && (forall f :: f in flights ==> ValidFlightCode(f.code))
    && (forall p :: p in passengers ==> ValidEmail(p.email) && ValidPhone(p.phone) && ValidPassport(p.passportNo))
  }

  ghost predicate SeatTakenIn(tickets: seq<Ticket>, flightId: nat, seatNo: string)
  {
    exists t :: t in tickets && t.flightId == flightId && t.seatNo == seatNo
  }

  ghost predicate BookedIn(tickets: seq<Ticket>, passengerId: nat, flightId: nat)
  {
    exists t :: t in tickets && t.passengerId == passengerId && t.flightId == flightId
  }

  /** No two tickets hold the same seat on the same flight (kept by the booking rules,
      not declared to the database). */
  ghost predicate SeatsUnique(tickets: seq<Ticket>)
  {
    forall i, j :: 0 <= i < j < |tickets| ==>
      !(tickets[i].flightId == tickets[j].flightId && tickets[i].seatNo == tickets[j].seatNo)
  }

  /** No passenger holds two tickets on one flight. */
  ghost predicate PairsUnique(tickets: seq<Ticket>)
  {
    forall i, j :: 0 <= i < j < |tickets| ==>
      !(tickets[i].passengerId == tickets[j].passengerId && tickets[i].flightId == tickets[j].flightId)
  }

  // ---------------------------------------------------------------------------
  // What the row-by-row constraints mean for the whole table

  /** The flights table read as a whole: every id below `nextId`, ids strictly
      increasing, every arrival after its departure, no code twice. */
  lemma {:induction false} FlightTableMeans(flights: seq<Flight>, nextId: nat)
    requires FlightTable(flights, nextId)
    ensures forall i :: 0 <= i < |flights| ==> flights[i].id < nextId && flights[i].departureTime < flights[i].arrivalTime
    ensures forall i, j :: 0 <= i < j < |flights| ==> flights[i].id < flights[j].id && flights[i].code != flights[j].code
  {
    if |flights| > 0 {
      var last := flights[|flights| - 1];
      var before := flights[..|flights| - 1];
      FlightTableMeans(before, last.id);
      CodesOf(before);
      forall i | 0 <= i < |flights|
        ensures flights[i].id < nextId && flights[i].departureTime < flights[i].arrivalTime
      {
        if i < |before| {
          assert flights[i] == before[i];
        }
      }
      forall i, j | 0 <= i < j < |flights|
        ensures flights[i].id < flights[j].id && flights[i].code != flights[j].code
      {
        assert flights[i] == before[i];
        if j < |before| {
          assert flights[j] == before[j];
        }
      }
    }
  }

  lemma {:induction false} CodesOf(flights: seq<Flight>)
    ensures forall i :: 0 <= i < |flights| ==> flights[i].code in FlightCodes(flights)
  {
    if |flights| > 0 {
      CodesOf(flights[..|flights| - 1]);
    }
  }

  /** The `unique_passenger_flight` index holds exactly the pairs of the stored tickets. */
  lemma {:induction false} BookedPairsIff(tickets: seq<Ticket>, passengerId: nat, flightId: nat)
    ensures (passengerId, flightId) in BookedPairs(tickets) <==> BookedIn(tickets, passengerId, flightId)
  {
    if |tickets| > 0 {
      var before := tickets[..|tickets| - 1];
      BookedPairsIff(before, passengerId, flightId);
      assert tickets == before + [tickets[|tickets| - 1]];
      if BookedIn(tickets, passengerId, flightId) {
        var t :| t in tickets && t.passengerId == passengerId && t.flightId == flightId;
        assert t in before || t == tickets[|tickets| - 1];
      }
    }
  }

  /** A valid tickets table never holds two tickets for one passenger on one flight. */
  lemma {:induction false} TicketTablePairsUnique(tickets: seq<Ticket>, nextId: nat, flightIds: set<nat>, passengerIds: set<nat>)
    requires TicketTable(tickets, nextId, flightIds, passengerIds)
    ensures PairsUnique(tickets)
  {
    if |tickets| > 0 {
      var t := tickets[|tickets| - 1];
      var before := tickets[..|tickets| - 1];
      TicketTablePairsUnique(before, t.id, flightIds, passengerIds);
      BookedPairsIff(before, t.passengerId, t.flightId);
      forall i, j | 0 <= i < j < |tickets|
        ensures !(tickets[i].passengerId == tickets[j].passengerId && tickets[i].flightId == tickets[j].flightId)
      {
        if j == |tickets| - 1 {
          assert tickets[i] in before;
        } else {
          assert tickets[i] == before[i] && tickets[j] == before[j];
        }
      }
    }
  }

  /** Every ticket of a valid table references a stored flight and a stored passenger. */
  lemma {:induction false} TicketTableReferences(tickets: seq<Ticket>, nextId: nat, flightIds: set<nat>, passengerIds: set<nat>)
    requires TicketTable(tickets, nextId, flightIds, passengerIds)
    ensures forall t :: t in tickets ==> t.id < nextId && t.flightId in flightIds && t.passengerId in passengerIds
  {
    if |tickets| > 0 {
      var before := tickets[..|tickets| - 1];
      TicketTableReferences(before, tickets[|tickets| - 1].id, flightIds, passengerIds);
      assert tickets == before + [tickets[|tickets| - 1]];
    }
  }

  /** Adding flights or passengers never breaks a ticket's foreign keys. */
  lemma {:induction false} TicketTableGrows(tickets: seq<Ticket>, nextId: nat, flightIds: set<nat>, passengerIds: set<nat>,
                                            flightIds': set<nat>, passengerIds': set<nat>)
    requires TicketTable(tickets, nextId, flightIds, passengerIds)
    requires flightIds <= flightIds' && passengerIds <= passengerIds'
    ensures TicketTable(tickets, nextId, flightIds', passengerIds')
  {
    if |tickets| > 0 {
      TicketTableGrows(tickets[..|tickets| - 1], tickets[|tickets| - 1].id, flightIds, passengerIds, flightIds', passengerIds');
    }
  }

  /** Committing a flight that passed the table's constraints keeps every table valid. */
  lemma InsertFlight(flights: seq<Flight>, nextId: nat, f: Flight, tickets: seq<Ticket>, nextTicketId: nat, passengerIds: set<nat>)
    requires FlightTable(flights, nextId) && TicketTable(tickets, nextTicketId, FlightIds(flights), passengerIds)
    requires f.id == nextId && f.departureTime < f.arrivalTime && f.code !in FlightCodes(flights)
    ensures FlightTable(flights + [f], nextId + 1)
    ensures TicketTable(tickets, nextTicketId, FlightIds(flights + [f]), passengerIds)
  {
    assert (flights + [f])[..|flights|] == flights;
    TicketTableGrows(tickets, nextTicketId, FlightIds(flights), passengerIds, FlightIds(flights + [f]), passengerIds);
  }

  /** Committing a passenger that passed the table's constraints keeps every table valid. */
  lemma InsertPassenger(passengers: seq<Passenger>, nextId: nat, p: Passenger, tickets: seq<Ticket>, nextTicketId: nat, flightIds: set<nat>)
    requires PassengerTable(passengers, nextId) && TicketTable(tickets, nextTicketId, flightIds, PassengerIds(passengers))
    requires p.id == nextId && p.email !in Emails(passengers) && p.passportNo !in Passports(passengers)
    ensures PassengerTable(passengers + [p], nextId + 1)
    ensures TicketTable(tickets, nextTicketId, flightIds, PassengerIds(passengers + [p]))
  {
    assert (passengers + [p])[..|passengers|] == passengers;
    TicketTableGrows(tickets, nextTicketId, flightIds, PassengerIds(passengers), flightIds, PassengerIds(passengers + [p]));
  }

  // ---------------------------------------------------------------------------
  // The booking rules

  /** The checks `book_ticket` runs, in order, followed by the commit's unique
      constraint: the first that fails is the error, and `None` means the ticket
      is inserted. */
  function BookingVerdict(tickets: seq<Ticket>, p: Passenger, f: Flight, seatNo: string, clock: Clock): (r: Option<Error>)
    ensures r == Some(Underage) <==> clock.today - p.dob < MinAgeDays
    ensures r == Some(SeatTaken) <==>
      clock.today - p.dob >= MinAgeDays && SeatTakenIn(tickets, f.id, seatNo)
    ensures r == Some(PastFlight) <==>
      clock.today - p.dob >= MinAgeDays && !SeatTakenIn(tickets, f.id, seatNo) &&
      f.departureTime < clock.now
    ensures r == Some(DuplicateBooking) <==>
      clock.today - p.dob >= MinAgeDays && !SeatTakenIn(tickets, f.id, seatNo) &&
      f.departureTime >= clock.now && BookedIn(tickets, p.id, f.id)
    ensures r == None <==>
      clock.today - p.dob >= MinAgeDays && !SeatTakenIn(tickets, f.id, seatNo) &&
      f.departureTime >= clock.now && !BookedIn(tickets, p.id, f.id)
  {
    if clock.today - p.dob < MinAgeDays then Some(Underage)
    else if FirstIndex(tickets, (t: Ticket) => t.flightId == f.id && t.seatNo == seatNo).Some? then Some(SeatTaken)
    else if f.departureTime < clock.now then Some(PastFlight)
    else if FirstIndex(tickets, (t: Ticket) => t.passengerId == p.id && t.flightId == f.id).Some? then Some(DuplicateBooking)
    else None
  }

  /** A ticket the rules admit keeps both uniqueness invariants of the ticket table. */
  lemma AdmittedTicketKeepsUniqueness(tickets: seq<Ticket>, p: Passenger, f: Flight, clock: Clock, t: Ticket)
    requires BookingVerdict(tickets, p, f, t.seatNo, clock).None?
    requires t.passengerId == p.id && t.flightId == f.id
    ensures SeatsUnique(tickets) ==> SeatsUnique(tickets + [t])
    ensures PairsUnique(tickets) ==> PairsUnique(tickets + [t])
  {
    var after := tickets + [t];
    if SeatsUnique(tickets) {
      forall i, j | 0 <= i < j < |after|
        ensures !(after[i].flightId == after[j].flightId && after[i].seatNo == after[j].seatNo)
      {
        if j == |tickets| {
          assert after[i] in tickets;
        }
      }
    }
    if PairsUnique(tickets) {
      forall i, j | 0 <= i < j < |after|
        ensures !(after[i].passengerId == after[j].passengerId && after[i].flightId == after[j].flightId)
      {
        if j == |tickets| {
          assert after[i] in tickets;
        }
      }
    }
  }

  /** Once a seat on a flight is sold, every later request for it is refused:
      as underage, or as a taken seat. */
  lemma SoldSeatStaysSold(tickets: seq<Ticket>, t: Ticket, p: Passenger, f: Flight, clock: Clock)
    requires t.flightId == f.id
    ensures BookingVerdict(tickets + [t], p, f, t.seatNo, clock) in {Some(Underage), Some(SeatTaken)}
  {
    assert t in tickets + [t];
  }

  /** Once a passenger holds a ticket on a flight, no second request of theirs for that
      flight is admitted, whatever the seat. */
  lemma OneTicketPerPassengerAndFlight(tickets: seq<Ticket>, t: Ticket, p: Passenger, f: Flight, seatNo: string, clock: Clock)
    requires t.passengerId == p.id && t.flightId == f.id
    ensures BookingVerdict(tickets + [t], p, f, seatNo, clock).Some?
  {
    assert t in tickets + [t];
  }

  // ---------------------------------------------------------------------------
  // Joined ticket rows and the export

  /** A row of `Ticket.query.join(Passenger).join(Flight)`. */
  datatype Booking = Booking(ticket: Ticket, passenger: Passenger, flight: Flight)

  /** A ticket whose passenger and flight are both stored. */
  function Resolves(flights: seq<Flight>, passengers: seq<Passenger>): Ticket -> bool
  {
    (t: Ticket) => t.flightId in FlightIds(flights) && t.passengerId in PassengerIds(passengers)
  }

  /** The ticket column of a sequence of joined rows. */
  function TicketsOf(rows: seq<Booking>): (r: seq<Ticket>)
    ensures |r| == |rows|
    ensures forall i :: 0 <= i < |rows| ==> r[i] == rows[i].ticket
  {
    seq(|rows|, i requires 0 <= i < |rows| => rows[i].ticket)
  }

  /** The inner join of `tickets` with the passengers and flights tables: one row for
      each ticket whose passenger and flight are both stored, and none for the others. */
  function Join(flights: seq<Flight>, passengers: seq<Passenger>, tickets: seq<Ticket>): (r: seq<Booking>)
    ensures TicketsOf(r) == Filter(tickets, Resolves(flights, passengers))
    ensures forall b :: b in r ==>
      b.ticket in tickets && b.flight in flights && b.passenger in passengers &&
      b.flight.id == b.ticket.flightId && b.passenger.id == b.ticket.passengerId
  {
    var kept := Filter(tickets, Resolves(flights, passengers));
    assert forall i :: 0 <= i < |kept| ==> kept[i] in kept && Resolves(flights, passengers)(kept[i]);
    seq(|kept|, i requires 0 <= i < |kept| && Resolves(flights, passengers)(kept[i]) =>
      Booking(kept[i], PassengerWithId(passengers, kept[i].passengerId), FlightWithId(flights, kept[i].flightId)))
  }

  /** Every ticket whose passenger and flight are stored appears in some joined row. */
  lemma JoinKeepsResolvedTickets(flights: seq<Flight>, passengers: seq<Passenger>, tickets: seq<Ticket>, t: Ticket)
    requires t in tickets && Resolves(flights, passengers)(t)
    ensures exists b :: b in Join(flights, passengers, tickets) && b.ticket == t
  {
    var r := Join(flights, passengers, tickets);
    assert t in TicketsOf(r);
    var i :| 0 <= i < |r| && TicketsOf(r)[i] == t;
    assert r[i] in r;
  }

  /** When every ticket's foreign keys are satisfied the join drops nothing: its i-th row
      is the i-th ticket with that ticket's passenger and flight. */
  lemma JoinKeepsEveryTicket(flights: seq<Flight>, passengers: seq<Passenger>, tickets: seq<Ticket>)
    requires forall t :: t in tickets ==> t.flightId in FlightIds(flights) && t.passengerId in PassengerIds(passengers)
    ensures |Join(flights, passengers, tickets)| == |tickets|
    ensures forall i :: 0 <= i < |tickets| ==> Join(flights, passengers, tickets)[i].ticket == tickets[i]
  {
    FilterKeepsAll(tickets, Resolves(flights, passengers));
  }

  /** `filter_by(flight_id=...)` as a row test. */
  function TicketOfFlight(flightId: nat): Ticket -> bool
  {
    (t: Ticket) => t.flightId == flightId
  }

  /** One CSV row of the export. */
  datatype ExportRow = ExportRow(passenger: string, flightCode: string, seat: string, price: int, bookedAt: int)

  /** The row a joined ticket contributes: passenger name, flight code, seat, price and
      booking time. */
  function RowOf(b: Booking): ExportRow
  {
    ExportRow(b.passenger.fullName, b.flight.code, b.ticket.seatNo, b.flight.price, b.ticket.bookedAt)
  }

  /** The export's writer loop: one row per joined ticket, in order. */
  method WriteRows(sold: seq<Booking>) returns (rows: seq<ExportRow>)
    ensures |rows| == |sold|
    ensures forall i :: 0 <= i < |rows| ==> rows[i] == RowOf(sold[i])
  {
    rows := [];
    for i := 0 to |sold|
      invariant |rows| == i
      invariant forall k :: 0 <= k < i ==> rows[k] == RowOf(sold[k])
    {
      rows := rows + [RowOf(sold[i])];
    }
  }

  // ---------------------------------------------------------------------------
  // The store

  class BookingStore {
    var flights: seq<Flight>
    var passengers: seq<Passenger>
    var tickets: seq<Ticket>
    var nextFlightId: nat
    var nextPassengerId: nat
    var nextTicketId: nat

    ghost predicate Valid()
      reads this
    {
      && FlightTable(flights, nextFlightId)
      && PassengerTable(passengers, nextPassengerId)
      && TicketTable(tickets, nextTicketId, FlightIds(flights), PassengerIds(passengers))
    }

    /** Empty tables; auto-increment ids start at 1. */
    constructor ()
      ensures Valid() && FieldsValid(flights, passengers)
      ensures flights == [] && passengers == [] && tickets == []
      ensures nextFlightId == 1 && nextPassengerId == 1 && nextTicketId == 1
    {
      flights, passengers, tickets := [], [], [];
      nextFlightId, nextPassengerId, nextTicketId := 1, 1, 1;
    }

    /** `add_flight`: construct (running the code validator), then commit, where the
        check constraint and the unique code may still reject the row. */
    method AddFlight(code: string, departure: string, destination: string,
                     departureTime: int, arrivalTime: int, price: int) returns (r: Result<Flight, Error>)
      requires Valid()
      modifies this
      ensures Valid()
      ensures FieldsValid(old(flights), old(passengers)) ==> FieldsValid(flights, passengers)
      ensures passengers == old(passengers) && nextPassengerId == old(nextPassengerId)
      ensures tickets == old(tickets) && nextTicketId == old(nextTicketId)
      ensures r == Failure(InvalidFlightCode) <==> !(3 <= |code| <= 10)
      ensures r == Failure(ArrivalNotAfterDeparture) <==> 3 <= |code| <= 10 && arrivalTime <= departureTime
      ensures r == Failure(DuplicateFlightCode) <==>
        3 <= |code| <= 10 && departureTime < arrivalTime && code in FlightCodes(old(flights))
      ensures r.Success? <==>
        3 <= |code| <= 10 && departureTime < arrivalTime && code !in FlightCodes(old(flights))
      ensures r.Success? ==>
        && r.value == Flight(old(nextFlightId), code, departure, destination, departureTime, arrivalTime, price)
        && flights == old(flights) + [r.value]
        && nextFlightId == old(nextFlightId) + 1
      ensures r.Failure? ==> flights == old(flights) && nextFlightId == old(nextFlightId)
    {
      var built := NewFlight(nextFlightId, code, departure, destination, departureTime, arrivalTime, price);
      if built.Failure? {
        return Failure(built.error);
      }
      var flight := built.value;
      if !(flight.departureTime < flight.arrivalTime) {
        return Failure(ArrivalNotAfterDeparture);
      }
      if code in FlightCodes(flights) {
        return Failure(DuplicateFlightCode);
      }
      InsertFlight(flights, nextFlightId, flight, tickets, nextTicketId, PassengerIds(passengers));
      flights := flights + [flight];
      nextFlightId := nextFlightId + 1;
      r := Success(flight);
    }

    /** `add_passenger`: construct (running the email, phone and passport validators in
        that order), then commit, where the unique email and passport may still reject it. */
    method AddPassenger(fullName: string, email: string, phone: string, dob: int, passportNo: string)
      returns (r: Result<Passenger, Error>)
      requires Valid()
      modifies this
      ensures Valid()
      ensures FieldsValid(old(flights), old(passengers)) ==> FieldsValid(flights, passengers)
      ensures flights == old(flights) && nextFlightId == old(nextFlightId)
      ensures tickets == old(tickets) && nextTicketId == old(nextTicketId)
      ensures var built := NewPassenger(old(nextPassengerId), fullName, email, phone, dob, passportNo);
        && (built.Failure? ==> r == built)
        && (built.Success? && email in Emails(old(passengers)) ==> r == Failure(DuplicateEmail))
        && (built.Success? && email !in Emails(old(passengers)) && passportNo in Passports(old(passengers)) ==>
              r == Failure(DuplicatePassport))
        && (built.Success? && email !in Emails(old(passengers)) && passportNo !in Passports(old(passengers)) ==>
              r == built)
      ensures r.Success? ==>
        && r.value == Passenger(old(nextPassengerId), fullName, email, phone, dob, passportNo)
        && passengers == old(passengers) + [r.value]
        && nextPassengerId == old(nextPassengerId) + 1
      ensures r.Failure? ==> passengers == old(passengers) && nextPassengerId == old(nextPassengerId)
    {
      var built := NewPassenger(nextPassengerId, fullName, email, phone, dob, passportNo);
      if built.Failure? {
        return built;
      }
      var passenger := built.value;
      if email in Emails(passengers) {
        return Failure(DuplicateEmail);
      }
      if passportNo in Passports(passengers) {
        return Failure(DuplicatePassport);
      }
      InsertPassenger(passengers, nextPassengerId, passenger, tickets, nextTicketId, FlightIds(flights));
      passengers := passengers + [passenger];
      nextPassengerId := nextPassengerId + 1;
      r := Success(passenger);
    }

    /** `book_ticket` on a passenger and a flight that exist: the age check, the seat
        check and the departure check in that order, then the insert, which the
        `unique_passenger_flight` constraint may roll back. */
    method Book(passengerId: nat, flightId: nat, seatNo: string, clock: Clock) returns (r: Result<Ticket, Error>)
      requires Valid()
      requires passengerId in PassengerIds(passengers) && flightId in FlightIds(flights)
      modifies this
      ensures Valid()
      ensures flights == old(flights) && nextFlightId == old(nextFlightId)
      ensures passengers == old(passengers) && nextPassengerId == old(nextPassengerId)
      ensures var verdict := BookingVerdict(old(tickets), PassengerWithId(passengers, passengerId),
                                            FlightWithId(flights, flightId), seatNo, clock);
        && (verdict.Some? ==> r == Failure(verdict.value))
        && (verdict.None? ==> r == Success(Ticket(old(nextTicketId), passengerId, flightId, seatNo, clock.utcNow)))
      ensures r.Success? ==> tickets == old(tickets) + [r.value] && nextTicketId == old(nextTicketId) + 1
      ensures r.Failure? ==> tickets == old(tickets) && nextTicketId == old(nextTicketId)
      ensures SeatsUnique(old(tickets)) ==> SeatsUnique(tickets)
      ensures PairsUnique(old(tickets)) ==> PairsUnique(tickets)
    {
      var passenger := PassengerWithId(passengers, passengerId);
      if clock.today - passenger.dob < MinAgeDays {
        return Failure(Underage);
      }
      var existingSeat := FirstIndex(tickets, (t: Ticket) => t.flightId == flightId && t.seatNo == seatNo);
      if existingSeat.Some? {
        return Failure(SeatTaken);
      }
      var flight := FlightWithId(flights, flightId);
      if flight.departureTime < clock.now {
        return Failure(PastFlight);
      }
      var ticket := Ticket(nextTicketId, passengerId, flightId, seatNo, clock.utcNow);
      BookedPairsIff(tickets, passengerId, flightId);
      if (passengerId, flightId) in BookedPairs(tickets) {
        return Failure(DuplicateBooking);
      }
      AdmittedTicketKeepsUniqueness(tickets, passenger, flight, clock, ticket);
      var after := tickets + [ticket];
      assert after[..|tickets|] == tickets;
      tickets := after;
      nextTicketId := nextTicketId + 1;
      r := Success(ticket);
    }

    /** `export_tickets`: one CSV row for each ticket of the flight, carrying that
        ticket's passenger, flight, seat and booking time. */
    method ExportRows(flightId: nat) returns (rows: seq<ExportRow>)
      requires Valid()
      ensures var mine := Filter(tickets, TicketOfFlight(flightId));
        var sold := Join(flights, passengers, mine);
        && |rows| == |sold| == |mine|
        && forall i :: 0 <= i < |rows| ==> sold[i].ticket == mine[i] && rows[i] == RowOf(sold[i])
    {
      var mine := Filter(tickets, TicketOfFlight(flightId));
      TicketTableReferences(tickets, nextTicketId, FlightIds(flights), PassengerIds(passengers));
      JoinKeepsEveryTicket(flights, passengers, mine);
      var sold := Join(flights, passengers, mine);
      rows := WriteRows(sold);
    }
  }
}
