/** The popular-routes report: sold tickets grouped by (departure, destination),
    with the number sold and the revenue per route, busiest route first. */
module Routes {
  import opened Sequences
  import opened Domain

  datatype Route = Route(departure: string, destination: string)

  /** One row of the flight-ticket join, reduced to what the report groups and sums. */
  datatype Sale = Sale(route: Route, price: int)

  /** One report row. */
  datatype RouteStats = RouteStats(route: Route, ticketCount: nat, totalRevenue: int)

  function RouteOf(f: Flight): Route
  {
    Route(f.departure, f.destination)
  }

  // ---------------------------------------------------------------------------
  // The reference quantities: tickets sold on a route, and what they earned
  // ---------------------------------------------------------------------------

  /** Number of tickets booked on the flight with id `flightId`. */
  function TicketsOn(tickets: seq<Ticket>, flightId: nat): nat
  {
    if |tickets| == 0 then 0
    else TicketsOn(tickets[..|tickets| - 1], flightId) + (if tickets[|tickets| - 1].flightId == flightId then 1 else 0)
  }

  /** Tickets sold on all flights flying `route`. */
  function TicketCount(flights: seq<Flight>, tickets: seq<Ticket>, route: Route): nat
  {
    if |flights| == 0 then 0
    else
      var f := flights[|flights| - 1];
      TicketCount(flights[..|flights| - 1], tickets, route) + (if RouteOf(f) == route then TicketsOn(tickets, f.id) else 0)
  }

  /** Revenue of `route`: each of its flights earns its price once per ticket sold on it. */
  function Revenue(flights: seq<Flight>, tickets: seq<Ticket>, route: Route): int
  {
    if |flights| == 0 then 0
    else
      var f := flights[|flights| - 1];
      Revenue(flights[..|flights| - 1], tickets, route) + (if RouteOf(f) == route then f.price * TicketsOn(tickets, f.id) else 0)
  }

  // ---------------------------------------------------------------------------
  // The join and the aggregates over it
  // ---------------------------------------------------------------------------

  /** The join rows of one flight: one per ticket booked on it. */
  function SalesOf(f: Flight, tickets: seq<Ticket>): seq<Sale>
  {
    if |tickets| == 0 then []
    else SalesOf(f, tickets[..|tickets| - 1]) + (if tickets[|tickets| - 1].flightId == f.id then [Sale(RouteOf(f), f.price)] else [])
  }

  /** `Flight JOIN Ticket`: every (flight, ticket) pair with matching flight id. */
  function Sales(flights: seq<Flight>, tickets: seq<Ticket>): seq<Sale>
  {
    if |flights| == 0 then []
    else Sales(flights[..|flights| - 1], tickets) + SalesOf(flights[|flights| - 1], tickets)
  }

  /** `COUNT(ticket.id)` over the join rows of `route`. */
  function CountOn(sales: seq<Sale>, route: Route): nat
  {
    if |sales| == 0 then 0
    else CountOn(sales[..|sales| - 1], route) + (if sales[|sales| - 1].route == route then 1 else 0)
  }

  /** `SUM(flight.price)` over the join rows of `route`. */
  function RevenueOn(sales: seq<Sale>, route: Route): int
  {
    if |sales| == 0 then 0
    else RevenueOn(sales[..|sales| - 1], route) + (if sales[|sales| - 1].route == route then sales[|sales| - 1].price else 0)
  }

  function RoutesIn(sales: seq<Sale>): (r: seq<Route>)
    ensures |r| == |sales|
    ensures forall i :: 0 <= i < |sales| ==> r[i] == sales[i].route
  {
    seq(|sales|, i requires 0 <= i < |sales| => sales[i].route)
  }

  /** A route has join rows exactly when it appears among them. */
  lemma {:induction false} CountOnPositive(sales: seq<Sale>, route: Route)
    ensures CountOn(sales, route) > 0 <==> route in RoutesIn(sales)
  {
    if |sales| > 0 {
      var init := sales[..|sales| - 1];
      CountOnPositive(init, route);
      assert RoutesIn(sales) == RoutesIn(init) + [sales[|sales| - 1].route];
    }
  }

  lemma {:induction false} AggregatesAdd(a: seq<Sale>, b: seq<Sale>, route: Route)
    ensures CountOn(a + b, route) == CountOn(a, route) + CountOn(b, route)
    ensures RevenueOn(a + b, route) == RevenueOn(a, route) + RevenueOn(b, route)
  {
    if |b| == 0 {
      assert a + b == a;
    } else {
      AggregatesAdd(a, b[..|b| - 1], route);
      assert (a + b)[..|a + b| - 1] == a + b[..|b| - 1];
    }
  }

  lemma {:induction false} SalesOfAggregates(f: Flight, tickets: seq<Ticket>, route: Route)
    ensures CountOn(SalesOf(f, tickets), route) == if RouteOf(f) == route then TicketsOn(tickets, f.id) else 0
    ensures RevenueOn(SalesOf(f, tickets), route) == if RouteOf(f) == route then f.price * TicketsOn(tickets, f.id) else 0
  {
    if |tickets| > 0 {
      var init := tickets[..|tickets| - 1];
      var extra := if tickets[|tickets| - 1].flightId == f.id then [Sale(RouteOf(f), f.price)] else [];
      SalesOfAggregates(f, init, route);
      AggregatesAdd(SalesOf(f, init), extra, route);
      assert f.price * (TicketsOn(init, f.id) + 1) == f.price * TicketsOn(init, f.id) + f.price;
    }
  }

  /** Counting and summing the join rows of a route gives the tickets sold on its
      flights and the price of each flight times its tickets. */
  lemma {:induction false} SalesAggregates(flights: seq<Flight>, tickets: seq<Ticket>, route: Route)
    ensures CountOn(Sales(flights, tickets), route) == TicketCount(flights, tickets, route)
    ensures RevenueOn(Sales(flights, tickets), route) == Revenue(flights, tickets, route)
  {
    if |flights| > 0 {
      var init := flights[..|flights| - 1];
      SalesAggregates(init, tickets, route);
      AggregatesAdd(Sales(init, tickets), SalesOf(flights[|flights| - 1], tickets), route);
      SalesOfAggregates(flights[|flights| - 1], tickets, route);
    }
  }

  // ---------------------------------------------------------------------------
  // GROUP BY and ORDER BY
  // ---------------------------------------------------------------------------

  predicate RoutesDistinct(rows: seq<RouteStats>)
  {
    forall i, j :: 0 <= i < j < |rows| ==> rows[i].route != rows[j].route
  }

  predicate ByCountDescending(rows: seq<RouteStats>)
  {
    forall i, j :: 0 <= i < j < |rows| ==> rows[i].ticketCount >= rows[j].ticketCount
  }

  /** `GROUP BY departure, destination`: one row per route in the join, in order
      of first appearance, with its count and revenue. */
  function Groups(sales: seq<Sale>): (r: seq<RouteStats>)
    ensures RoutesDistinct(r)
    ensures forall row :: row in r ==> row.route in RoutesIn(sales)
    ensures forall row :: row in r ==> row.ticketCount == CountOn(sales, row.route) && row.totalRevenue == RevenueOn(sales, row.route)
    ensures forall route :: route in RoutesIn(sales) ==> exists row :: row in r && row.route == route
  {
    var d := Dedupe(RoutesIn(sales));
    var r := seq(|d|, i requires 0 <= i < |d| => RouteStats(d[i], CountOn(sales, d[i]), RevenueOn(sales, d[i])));
    assert forall route :: route in RoutesIn(sales) ==> r[IndexIn(d, route)].route == route;
    r
  }

  function IndexIn(d: seq<Route>, route: Route): (i: nat)
    requires route in d
    ensures i < |d| && d[i] == route
  {
    if d[0] == route then 0 else 1 + IndexIn(d[1..], route)
  }

  /** Places `x` in a list sorted by descending count, ahead of the first row it is not below. */
  function InsertByCount(x: RouteStats, rows: seq<RouteStats>): (r: seq<RouteStats>)
    ensures multiset(r) == multiset(rows) + multiset{x}
    ensures forall y :: y in r <==> y == x || y in rows
  {
    if |rows| == 0 then [x]
    else if x.ticketCount >= rows[0].ticketCount then [x] + rows
    else
      assert rows == [rows[0]] + rows[1..];
      [rows[0]] + InsertByCount(x, rows[1..])
  }

  lemma {:induction false} InsertKeepsOrder(x: RouteStats, rows: seq<RouteStats>)
    requires ByCountDescending(rows)
    ensures ByCountDescending(InsertByCount(x, rows))
  {
    if |rows| > 0 && x.ticketCount < rows[0].ticketCount {
      InsertKeepsOrder(x, rows[1..]);
      var tail := InsertByCount(x, rows[1..]);
      assert forall y :: y in tail ==> y.ticketCount <= rows[0].ticketCount;
    }
  }

  lemma {:induction false} InsertKeepsRoutesDistinct(x: RouteStats, rows: seq<RouteStats>)
    requires RoutesDistinct(rows)
    requires forall y :: y in rows ==> y.route != x.route
    ensures RoutesDistinct(InsertByCount(x, rows))
  {
    if |rows| > 0 && x.ticketCount < rows[0].ticketCount {
      InsertKeepsRoutesDistinct(x, rows[1..]);
      var tail := InsertByCount(x, rows[1..]);
      assert forall y :: y in tail ==> y.route != rows[0].route;
    }
  }

  /** `ORDER BY ticket_count DESC`: the same rows, busiest route first. */
  function SortByCount(rows: seq<RouteStats>): (r: seq<RouteStats>)
    ensures multiset(r) == multiset(rows)
    ensures forall y :: y in r <==> y in rows
    ensures ByCountDescending(r)
    ensures RoutesDistinct(rows) ==> RoutesDistinct(r)
  {
    if |rows| == 0 then []
    else
      assert rows == [rows[0]] + rows[1..];
      var sorted := SortByCount(rows[1..]);
      InsertKeepsOrder(rows[0], sorted);
      if RoutesDistinct(rows) then
        InsertKeepsRoutesDistinct(rows[0], sorted);
        InsertByCount(rows[0], sorted)
      else
        InsertByCount(rows[0], sorted)
  }

  /** `popular_routes`: one row per route with tickets sold, the count of its tickets,
      the sum of its flights' prices over those tickets, busiest route first. */
  function PopularRoutes(flights: seq<Flight>, tickets: seq<Ticket>): (r: seq<RouteStats>)
    ensures ByCountDescending(r)
    ensures RoutesDistinct(r)
    ensures forall row :: row in r ==>
      && row.ticketCount == TicketCount(flights, tickets, row.route) > 0
      && row.totalRevenue == Revenue(flights, tickets, row.route)
    ensures forall route :: TicketCount(flights, tickets, route) > 0 ==> exists row :: row in r && row.route == route
  {
    var sales := Sales(flights, tickets);
    var r := SortByCount(Groups(sales));
    forall route ensures CountOn(sales, route) == TicketCount(flights, tickets, route)
      && RevenueOn(sales, route) == Revenue(flights, tickets, route)
      && (CountOn(sales, route) > 0 <==> route in RoutesIn(sales))
    {
      SalesAggregates(flights, tickets, route);
      CountOnPositive(sales, route);
    }
    r
  }

  /** Two tickets on one flight priced 10000 make one row: count 2, revenue 20000. */
  lemma TwoTicketsOnOneFlight()
    ensures PopularRoutes([SampleFlight()], SampleTickets()) == [RouteStats(Route("HAN", "SGN"), 2, 20000)]
  {
    var sale := Sale(Route("HAN", "SGN"), 10000);
    SampleJoin();
    TwoEqualSalesGroup(sale);
    var g := RouteStats(sale.route, 2, 20000);
    assert SortByCount([g]) == [g] by { assert [g][1..] == []; }
  }

  function SampleFlight(): Flight
  {
    Flight(1, "VN123", "HAN", "SGN", 600, 720, 10000)
  }

  function SampleTickets(): seq<Ticket>
  {
    [Ticket(1, 1, 1, "1A", 0), Ticket(2, 2, 1, "1B", 0)]
  }

  lemma SampleJoin()
    ensures Sales([SampleFlight()], SampleTickets()) == [Sale(Route("HAN", "SGN"), 10000), Sale(Route("HAN", "SGN"), 10000)]
  {
    var f, tickets := SampleFlight(), SampleTickets();
    var sale := Sale(Route("HAN", "SGN"), 10000);
    var first := tickets[..1];
    assert first[..0] == [];
    assert SalesOf(f, first) == [sale];
    assert tickets[..|tickets| - 1] == first;
    assert [f][..0] == [];
  }

  lemma TwoEqualSalesGroup(sale: Sale)
    ensures Groups([sale, sale]) == [RouteStats(sale.route, 2, sale.price + sale.price)]
  {
    var sales := [sale, sale];
    TwoEqualRoutes(sale);
    TwoEqualAggregates(sale);
    var d := Dedupe(RoutesIn(sales));
    assert |d| == 1 && d[0] == sale.route;
  }

  lemma TwoEqualRoutes(sale: Sale)
    ensures Dedupe(RoutesIn([sale, sale])) == [sale.route]
  {
    var routes := RoutesIn([sale, sale]);
    assert routes == [sale.route, sale.route];
    assert routes[..1] == [sale.route] && [sale.route][..0] == [];
    assert Dedupe(routes[..1]) == [sale.route];
  }

  lemma TwoEqualAggregates(sale: Sale)
    ensures CountOn([sale, sale], sale.route) == 2
    ensures RevenueOn([sale, sale], sale.route) == sale.price + sale.price
  {
    var sales := [sale, sale];
    assert sales[..1] == [sale] && [sale][..0] == [];
    assert CountOn(sales[..1], sale.route) == 1;
    assert RevenueOn(sales[..1], sale.route) == sale.price;
  }
}
