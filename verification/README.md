# Flight booking domain in Dafny

This is a model of the booking logic of a small Flask application. The application stores airline flights, passengers and tickets in MySQL. The model covers the decisions the application makes:

- the field validators that run when a `Flight` or a `Passenger` is built;
- the table constraints the database enforces when a row is committed;
- the ordered rule chain of `book_ticket`;
- the optional filters of `list_flights`;
- the per-ticket row projection of the CSV export;
- the grouping, summing and ordering of the popular-routes report.

Modules:

- `Results`: `Option` and `Result`.
- `Text`: ASCII character classes, Python's `split(sep)[-1]`, and SQL `LIKE` with its `%` and `_` wildcards.
- `Sequences`: first-match search, filtering and de-duplication over sequences.
- `Domain`: the three entities, the error kinds, the validators and the validating constructors.
- `Store`: the class `BookingStore`, which holds the three tables and their constraints. Its methods are add-flight, add-passenger, book and export. Each write either appends exactly one row or leaves every table unchanged.
- `Listing`: `list_flights` and the booking form's list of upcoming flights.
- `Routes`: the popular-routes report.

Units:

- Times are integer minutes on one clock.
- Dates are integer day numbers.
- Prices are integer cents.
- Text is ASCII.

The clock readings `datetime.now()` and `datetime.utcnow()` become a `Clock` parameter. A date string is parsed by a `parseDate` parameter, which returns `None` where `strptime` raises `ValueError`.

Three behaviours of the code are worth stating plainly:

- `ilike('%' + value + '%')` is SQL `LIKE`, not a substring test: `%` and `_` in the value are wildcards. `Listing.TextFilterIsContains` proves that the filter is case-insensitive containment for values free of `%` and `_`. `Listing.UnderscoreIsAWildcard` shows a value on which the two differ.
- No code checks that a price is non-negative; the model accepts any price.
- The booking form lists flights with `departure_time > now`. `book_ticket` refuses only `departure_time < now`. A flight departing exactly at `now` is therefore bookable but not offered. The model keeps both tests as written.

## Model

| member | source | states |
|---|---|---|
| Text.NonEmptyAll | app.py:61 | `isdigit`/`isalnum`: true exactly when the string is non-empty and every character is in the class |
| Text.Like | app.py:100 | SQL `LIKE`: `%` matches any run of characters, `_` any one character, every other pattern character itself |
| Text.AfterLast | app.py:55 | `split('@')[-1]` is the suffix after the last separator: it holds no separator, and if it is shorter than the string, the character before it is the separator |
| Text.LikeContains | app.py:100 | the pattern `%q%` with a wildcard-free `q` matches a text exactly when the text contains `q` |
| Domain.ValidFlightCode | app.py:39-42 | a flight code is accepted when it is 3 to 10 characters long |
| Domain.ValidEmail | app.py:53-57 | an email is accepted when it contains an '@' and the part after its last '@' contains a '.' |
| Domain.ValidPhone | app.py:59-63 | a phone is accepted when it is all digits and 10 to 15 long |
| Domain.ValidPassport | app.py:65-69 | a passport is accepted when it is 6 to 20 long and alphanumeric |
| Domain.NewFlight | app.py:38-42 | a flight is built exactly when its code is 3 to 10 characters long; it then holds the given fields with the code unchanged; otherwise the error is the invalid-code error |
| Domain.EmailValidIffShape | app.py:53-57 | the email test holds exactly when there is an '@' that no later '@' follows and the text after it contains a '.' |
| Domain.NewPassenger | app.py:44-69 | first failure in the order email, phone, passport: each error is reported exactly when the earlier validators pass and its own fails; success exactly when all three pass, with the given fields |
| Sequences.FirstIndex | app.py:170 | `.first()`: the index found satisfies the test and no earlier element does; none is found exactly when no element satisfies it |
| Sequences.Filter | app.py:100 | `.filter()`: an element is kept exactly when it passes, with its multiplicity unchanged |
| Store.FlightWithId | app.py:175 | `Flight.query.get` on a stored id returns a stored flight with that id |
| Store.PassengerWithId | app.py:165 | `Passenger.query.get` on a stored id returns a stored passenger with that id |
| Store.FlightTableMeans | app.py:26-35 | in a valid flights table, ids are increasing and below the next id, every arrival is after its departure, and no code repeats |
| Store.BookedPairsIff | app.py:80 | the `unique_passenger_flight` index holds a pair exactly when a stored ticket has that passenger and flight |
| Store.TicketTablePairsUnique | app.py:80 | a valid tickets table never has two tickets for one passenger on one flight |
| Store.TicketTableReferences | app.py:74-75 | every ticket in a valid table references a stored flight and a stored passenger |
| Store.TicketTableGrows | app.py:74-75 | adding flights or passengers never breaks a ticket's foreign keys |
| Store.InsertFlight | app.py:124-125 | committing a flight that passes the check constraint and the unique code keeps every table valid |
| Store.InsertPassenger | app.py:145-146 | committing a passenger with a new email and a new passport keeps every table valid |
| Store.BookingVerdict | app.py:163-185 | first failure in the order age under 730 days, seat already sold on the flight, departure before now, then the passenger already booked on the flight; the ticket is admitted exactly when all four checks pass |
| Store.AdmittedTicketKeepsUniqueness | app.py:169-185 | a ticket the rules admit keeps seats unique per flight and (passenger, flight) pairs unique |
| Store.SoldSeatStaysSold | app.py:169-172 | after a seat on a flight is sold, every request for it is refused as underage or as a taken seat |
| Store.OneTicketPerPassengerAndFlight | app.py:80 | after a passenger holds a ticket on a flight, no further request of theirs for that flight is admitted |
| Store.Join | app.py:200 | the inner join: its ticket column is exactly the tickets whose passenger and flight are stored, one row each; every row pairs its ticket with the stored passenger and flight it references |
| Store.JoinKeepsResolvedTickets | app.py:200 | every ticket whose passenger and flight are stored appears in some joined row |
| Store.JoinKeepsEveryTicket | app.py:205 | when every foreign key holds, the join keeps every ticket, one row each, in the model's insertion order |
| Store.WriteRows | app.py:211-218 | the export loop writes one row per joined ticket, in the order of the join: name, flight code, seat, price and booking time |
| Store.RowOf | app.py:212-218 | the row written for a joined ticket: passenger name, flight code, seat, price and booking time |
| Store.BookingStore.constructor | app.py:24-84 | the tables start empty, every auto-increment id starts at 1, and the store is valid |
| Store.BookingStore.AddFlight | app.py:113-131 | code validator, then the arrival-after-departure check, then the unique code, each exactly when the earlier ones pass; success appends exactly the new flight with the next id; any failure leaves every table as it was; the store stays valid |
| Store.BookingStore.AddPassenger | app.py:134-152 | the constructor's validator error if one fails, then duplicate email, then duplicate passport; success appends exactly the new passenger with the next id; any failure leaves every table as it was; the store stays valid |
| Store.BookingStore.Book | app.py:156-189 | the result is the rule chain's verdict; an admitted ticket is appended with the next id, the given passenger, flight and seat, and booking time `utcnow`; a refusal leaves the tickets unchanged; flights and passengers never change; seat and pair uniqueness are preserved; the store stays valid |
| Store.BookingStore.ExportRows | app.py:203-218 | one row for each ticket of the given flight, and no other: the i-th row carries the i-th such ticket's seat and booking time, with its passenger's name and its flight's code and price |
| Listing.DateFilter | app.py:102-108 | the date filter applies exactly when the argument is present, non-empty and parses, and then it is the parsed day |
| Listing.ListFlights | app.py:91-110 | a flight is listed exactly when it is stored and passes every filter that applies, with its multiplicity unchanged |
| Listing.ListFlightsIsOneFilter | app.py:96-108 | narrowing filter by filter gives the same list as one filter by the conjunction of the applicable conditions |
| Listing.NoFilterListsAll | app.py:96-110 | absent or empty text filters with an absent, empty or unparseable date list every stored flight |
| Listing.ILike | app.py:100 | `ilike`: SQL `LIKE` after lower-casing both the column and the pattern |
| Listing.TextFilterIsContains | app.py:98-101 | a text filter without `%` or `_` keeps exactly the rows whose column contains it, ignoring ASCII case |
| Listing.UnderscoreIsAWildcard | app.py:99 | the filter `_` admits the departure `HAN`, which does not contain `_` |
| Listing.UpcomingFlights | app.py:195 | the booking form offers exactly the stored flights departing strictly after now |
| Routes.Sales | app.py:235 | `Flight JOIN Ticket`: one row per (flight, ticket) pair with matching flight id, carrying the flight's route and price |
| Routes.CountOn | app.py:233 | `COUNT(ticket.id)` over the join rows of a route |
| Routes.RevenueOn | app.py:234 | `SUM(flight.price)` over the join rows of a route |
| Routes.SalesAggregates | app.py:230-235 | counting the join rows of a route gives the tickets sold on its flights; summing their prices gives each flight's price times its tickets |
| Routes.CountOnPositive | app.py:235 | a route has join rows exactly when it appears among them |
| Routes.Groups | app.py:235 | `GROUP BY`: one row per route in the join and none for any other route, each with that route's count and revenue |
| Routes.InsertByCount | app.py:235 | inserting a row adds exactly that row to the multiset |
| Routes.InsertKeepsOrder | app.py:235 | inserting into a list sorted by descending count keeps it sorted |
| Routes.InsertKeepsRoutesDistinct | app.py:235 | inserting a row with a new route keeps routes distinct |
| Routes.SortByCount | app.py:235 | `ORDER BY ticket_count DESC`: a permutation of the rows, sorted by descending count, keeping routes distinct |
| Routes.PopularRoutes | app.py:228-237 | one row per route with at least one ticket, routes distinct, count = tickets on the route's flights, revenue = price summed per ticket, rows in non-increasing count order |
| Routes.TwoTicketsOnOneFlight | app.py:230-235 | two tickets on one flight priced 10000 give one row with count 2 and revenue 20000 |

## Left out

- HTTP routing, templates, redirects and form access are left out. The operations take their arguments directly.
- Database sessions, migrations and configuration are left out. Commit and rollback become "append one row" and "leave every table unchanged".
- `strptime`, `strftime` and `float(...)` are left out. Times and dates are integers, prices are integer cents, and date parsing is the `parseDate` parameter. The CSV text itself is not modelled: neither the `csv.writer` quoting nor the `YYYY-MM-DD HH:MM` formatting.
- The wall clock becomes the `Clock` parameter.
- The check-then-act race between the seat check and the insert is left out. The model is sequential.
- Store.BookingStore.Book: requires that the passenger id and the flight id exist. A missing passenger id crashes at app.py:166. A missing flight id crashes at app.py:176 unless the age check has already refused. The model requires both ids to exist.
- Unicode behaviour of `isdigit`, `isalnum` and `lower` is left out. Text is ASCII.
- Column widths are left out: `String(n)` limits and `Numeric(10,2)` rounding.
- MySQL's case-insensitive collation is left out. Unique emails, passports and codes are compared exactly. `GROUP BY` groups routes by exact text.
- `LIKE`'s backslash escape is left out.
- Auto-increment gaps after a rolled-back insert are left out. A refused write leaves every next id unchanged.
- Routes.SortByCount: the order among routes with equal counts is the database's choice. The model fixes one order and states only that the counts do not increase.
- Queries without `ORDER BY` return rows in an order the database chooses; the model returns them in insertion order. This covers `list_flights`, `list_tickets` and the export. `Sequences.Filter` states only membership and multiplicity.
- Which constraint the database reports when a commit breaks two at once is not specified. The model picks an order: for flights, the check constraint before the unique code; for passengers, email before passport.
- `list_tickets` is `Store.Join` over all tickets, and is not modelled as a separate member.
- The CHECK constraint `check_arrival_after_departure` is assumed to be enforced, and its violation is treated as a refusal like the unique keys. Whether the application catches it depends on the database server and driver, which the application does not fix.
- Error texts are left out. The model reports the kind of error; the `ValueError` message and the driver's text for a constraint violation are not modelled.
- The CSV header row is left out. The model covers the per-ticket rows.
