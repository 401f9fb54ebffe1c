/** The flight list: optional departure, destination and date filters, each
    narrowing the query when it is supplied. */
module Listing {
  import opened Results
  import opened Text
  import opened Sequences
  import opened Domain

  /** The three query-string arguments; a missing argument is `None`. */
  datatype FlightQuery = FlightQuery(
    departure: Option<string>,
    destination: Option<string>,
    date: Option<string>)

  const MinutesPerDay: int := 24 * 60

  /** An argument takes part only when it is present and non-empty. */
  predicate Supplied(arg: Option<string>)
  {
    arg.Some? && |arg.value| > 0
  }

  /** `column.ilike(pattern)`: SQL LIKE with both sides lower-cased. */
  predicate ILike(x: string, pattern: string)
  {
    Like(LowerStr(x), LowerStr(pattern))
  }

  /** The pattern a text filter becomes: the value wrapped in `%` on both sides. */
  function Around(v: string): string
  {
    "%" + v + "%"
  }

  /** The calendar day a departure time falls on. */
  function DayOf(minutes: int): int
  {
    minutes / MinutesPerDay
  }

  /** The date filter that applies: the parsed day of a supplied date, and
      nothing when the date is missing, empty or does not parse. */
  function DateFilter(arg: Option<string>, parseDate: string -> Option<int>): (r: Option<int>)
    ensures r.Some? <==> Supplied(arg) && parseDate(arg.value).Some?
    ensures r.Some? ==> r == parseDate(arg.value)
  {
    if Supplied(arg) then parseDate(arg.value) else None
  }

  /** The text filter on one column: passes everything when not supplied. */
  predicate TextFilterPasses(arg: Option<string>, column: string)
  {
    Supplied(arg) ==> ILike(column, Around(arg.value))
  }

  /** The three conditions as row tests; each passes every row when its filter does not apply. */
  function DepartureTest(q: FlightQuery): Flight -> bool
  {
    (f: Flight) => TextFilterPasses(q.departure, f.departure)
  }

  function DestinationTest(q: FlightQuery): Flight -> bool
  {
    (f: Flight) => TextFilterPasses(q.destination, f.destination)
  }

  function DateTest(q: FlightQuery, parseDate: string -> Option<int>): Flight -> bool
  {
    (f: Flight) =>
      DateFilter(q.date, parseDate).Some? ==> DayOf(f.departureTime) == DateFilter(q.date, parseDate).value
  }

  /** A flight passes every filter that applies to the query. */
  predicate Admits(q: FlightQuery, parseDate: string -> Option<int>, f: Flight)
  {
    DepartureTest(q)(f) && DestinationTest(q)(f) && DateTest(q, parseDate)(f)
  }

  /** One `query.filter(...)` step, taken only when its argument applies. */
  function Narrow(rows: seq<Flight>, applies: bool, test: Flight -> bool): seq<Flight>
  {
    if applies then Filter(rows, test) else rows
  }

  /** `list_flights`: the flights, narrowed by each supplied filter in turn.
      `parseDate` stands for `strptime(..., '%Y-%m-%d')`, `None` on a `ValueError`. */
  function ListFlights(flights: seq<Flight>, q: FlightQuery, parseDate: string -> Option<int>): (r: seq<Flight>)
    ensures forall f :: f in r <==> f in flights && Admits(q, parseDate, f)
    ensures forall f :: multiset(r)[f] == if Admits(q, parseDate, f) then multiset(flights)[f] else 0
  {
    var byDeparture := Narrow(flights, Supplied(q.departure), DepartureTest(q));
    var byDestination := Narrow(byDeparture, Supplied(q.destination), DestinationTest(q));
    Narrow(byDestination, DateFilter(q.date, parseDate).Some?, DateTest(q, parseDate))
  }

  /** A step that does not apply is the filter by a test every row passes. */
  lemma NarrowIsFilter(rows: seq<Flight>, applies: bool, test: Flight -> bool)
    requires !applies ==> forall f :: test(f)
    ensures Narrow(rows, applies, test) == Filter(rows, test)
  {
    if !applies {
      FilterKeepsAll(rows, test);
    }
  }

  /** Narrowing step by step gives the same list, in the same order, as one
      filter by the conjunction of the applicable conditions. */
  lemma ListFlightsIsOneFilter(flights: seq<Flight>, q: FlightQuery, parseDate: string -> Option<int>)
    ensures ListFlights(flights, q, parseDate) == Filter(flights, (f: Flight) => Admits(q, parseDate, f))
  {
    var dep, dst, day := DepartureTest(q), DestinationTest(q), DateTest(q, parseDate);
    var byDeparture := Narrow(flights, Supplied(q.departure), dep);
    var byDestination := Narrow(byDeparture, Supplied(q.destination), dst);
    NarrowIsFilter(flights, Supplied(q.departure), dep);
    NarrowIsFilter(byDeparture, Supplied(q.destination), dst);
    NarrowIsFilter(byDestination, DateFilter(q.date, parseDate).Some?, day);
    var both := (f: Flight) => dep(f) && dst(f);
    FilterFilter(flights, dep, dst, both);
    FilterFilter(flights, both, day, (f: Flight) => Admits(q, parseDate, f));
  }

  /** With no filter supplied the whole table is listed, in table order. */
  lemma NoFilterListsAll(flights: seq<Flight>, q: FlightQuery, parseDate: string -> Option<int>)
    requires !Supplied(q.departure) && !Supplied(q.destination)
    requires !Supplied(q.date) || parseDate(q.date.value).None?
    ensures ListFlights(flights, q, parseDate) == flights
  {
    ListFlightsIsOneFilter(flights, q, parseDate);
    FilterKeepsAll(flights, (f: Flight) => Admits(q, parseDate, f));
  }

  /** Lower-casing maps the pattern punctuation to itself and nothing else onto it. */
  lemma LowerKeepsWildcards(v: string)
    ensures NoWildcards(v) ==> NoWildcards(LowerStr(v))
    ensures LowerStr(Around(v)) == Around(LowerStr(v))
  {
    var l := LowerStr(v);
    if NoWildcards(v) {
      forall i | 0 <= i < |l| ensures l[i] != '%' && l[i] != '_' {
        assert v[i] != '%' && v[i] != '_';
      }
    }
  }

  /** A text filter free of `%` and `_` keeps exactly the rows whose column
      contains it, ignoring ASCII case. */
  lemma {:induction false} TextFilterIsContains(column: string, v: string)
    requires NoWildcards(v)
    ensures ILike(column, Around(v)) <==> Contains(LowerStr(column), LowerStr(v))
  {
    LowerKeepsWildcards(v);
    LikeContains(LowerStr(column), LowerStr(v));
  }

  /** The filter is a LIKE pattern, not a substring: `_` admits any one-letter stretch,
      so a departure that does not contain the text `_` still passes it. */
  lemma UnderscoreIsAWildcard()
    ensures ILike("HAN", Around("_"))
    ensures !Contains(LowerStr("HAN"), LowerStr("_"))
  {
    var t := LowerStr("HAN");
    assert t == "han";
    assert Around("_") == "%_%" && LowerStr("%_%") == "%_%";
    assert Like("", "%");
    assert Like("an", "%") by { LikePercentMatchesAll("an"); }
    assert Like("an", "%") && "han"[1..] == "an";
    assert Like("han", "_%");
  }

  /** The flights offered on the booking form: those departing strictly after now. */
  function UpcomingFlights(flights: seq<Flight>, now: int): (r: seq<Flight>)
    ensures forall f :: f in r <==> f in flights && f.departureTime > now
  {
    Filter(flights, (f: Flight) => f.departureTime > now)
  }
}
