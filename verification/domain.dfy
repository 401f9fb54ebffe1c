/** The three entities of the booking domain, the errors a request can end in,
    and the field validators that run when an entity is constructed. */
module Domain {
  import opened Results
  import opened Text

  /** Times are minutes on one clock, dates are day numbers, prices are integer cents. */
  datatype Flight = Flight(
    id: nat,
    code: string,
    departure: string,
    destination: string,
    departureTime: int,
    arrivalTime: int,
    price: int)

  datatype Passenger = Passenger(
    id: nat,
    fullName: string,
    email: string,
    phone: string,
    dob: int,
    passportNo: string)

  datatype Ticket = Ticket(
    id: nat,
    passengerId: nat,
    flightId: nat,
    seatNo: string,
    bookedAt: int)

  /** The reason a request is refused: a `ValueError` raised by a validator or by the
      booking rules, or a constraint the database enforces at commit. */
  datatype Error =
    | InvalidFlightCode
    | InvalidEmail
    | InvalidPhone
    | InvalidPassport
    | Underage
    | SeatTaken
    | PastFlight
    | ArrivalNotAfterDeparture
    | DuplicateFlightCode
    | DuplicateEmail
    | DuplicatePassport
    | DuplicateBooking

  // ---------------------------------------------------------------------------
  // Field validators, each as the application writes its test

  predicate ValidFlightCode(code: string) { 3 <= |code| <= 10 }

  /** `'@' in email and '.' in email.split('@')[-1]` */
  predicate ValidEmail(email: string)
  {
    '@' in email && '.' in AfterLast(email, '@')
  }

  /** `phone.isdigit() and 10 <= len(phone) <= 15` */
  predicate ValidPhone(phone: string)
  {
    NonEmptyAll(phone, IsDigit) && 10 <= |phone| <= 15
  }

  /** `6 <= len(passport) <= 20 and passport.isalnum()` */
  predicate ValidPassport(passport: string)
  {
    6 <= |passport| <= 20 && NonEmptyAll(passport, IsAlnum)
  }

  /** The email rule as a shape: an '@' with no further '@' after it, and a '.' in
      the text after it. */
  predicate EmailShape(email: string)
  {
    exists i :: 0 <= i < |email| && email[i] == '@' && '@' !in email[i + 1..] && '.' in email[i + 1..]
  }

  lemma EmailValidIffShape(email: string)
    ensures ValidEmail(email) <==> EmailShape(email)
  {
    var tail := AfterLast(email, '@');
    var n := |email| - |tail|;
    if ValidEmail(email) {
      assert email[0..] == email;
      assert email[n - 1 + 1..] == tail;
    }
    if EmailShape(email) {
      var i :| 0 <= i < |email| && email[i] == '@' && '@' !in email[i + 1..] && '.' in email[i + 1..];
      assert '@' in email;
      assert email[i + 1..] == tail;
    }
  }

  // ---------------------------------------------------------------------------
  // Validating constructors

  /** Building a Flight runs the flight-code validator; nothing else is checked
      before the row reaches the database. */
  function NewFlight(id: nat, code: string, departure: string, destination: string,
                     departureTime: int, arrivalTime: int, price: int): (r: Result<Flight, Error>)
    ensures r.Success? <==> 3 <= |code| <= 10
    ensures r.Success? ==> r.value == Flight(id, code, departure, destination, departureTime, arrivalTime, price)
    ensures r.Failure? ==> r.error == InvalidFlightCode
  {
    if ValidFlightCode(code) then
      Success(Flight(id, code, departure, destination, departureTime, arrivalTime, price))
    else
      Failure(InvalidFlightCode)
  }

  /** Building a Passenger assigns its fields in keyword order, so the validators run
      email, then phone, then passport, and the first one that fails is reported. */
  function NewPassenger(id: nat, fullName: string, email: string, phone: string,
                        dob: int, passportNo: string): (r: Result<Passenger, Error>)
    ensures r == Failure(InvalidEmail) <==> !ValidEmail(email)
    ensures r == Failure(InvalidPhone) <==> ValidEmail(email) && !ValidPhone(phone)
    ensures r == Failure(InvalidPassport) <==> ValidEmail(email) && ValidPhone(phone) && !ValidPassport(passportNo)
    ensures r.Success? <==> ValidEmail(email) && ValidPhone(phone) && ValidPassport(passportNo)
    ensures r.Success? ==> r.value == Passenger(id, fullName, email, phone, dob, passportNo)
  {
    if !ValidEmail(email) then Failure(InvalidEmail)
    else if !ValidPhone(phone) then Failure(InvalidPhone)
    else if !ValidPassport(passportNo) then Failure(InvalidPassport)
    else Success(Passenger(id, fullName, email, phone, dob, passportNo))
  }
}
