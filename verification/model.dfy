/**
 The records that a flight-search response decodes into (model/model.go).

 Timestamps are abstract integers: an `Instant` is a departure or arrival
 time as decoded from the response, a `Day` is a calendar day number (adding
 `i` to a `Day` is "i days later"). The JSON decoder and the timestamp
 parser are library code and enter the model only as function parameters.
 */
module Model {
  import opened Wrappers

  type Instant = int
  type Day = int

  /** A byte of a raw JSON payload. */
  newtype byte = b: int | 0 <= b < 256

  datatype Fare = Fare(uid: string, fType: string, miles: int)

  datatype Airline = Airline(code: string, name: string)

  datatype Airport = Airport(code: string, name: string, city: string, country: string)

  datatype FlightDetail = FlightDetail(date: Instant, airport: Airport)

  datatype Leg = Leg(cabin: string, departure: FlightDetail, arrival: FlightDetail)

  datatype Flight = Flight(
    uid: string,
    cabin: string,
    stops: int,
    departure: FlightDetail,
    arrival: FlightDetail,
    airline: Airline,
    legList: seq<Leg>,
    fareList: seq<Fare>)

  datatype BestPricing = BestPricing(miles: int, sourceFare: string, fare: Fare)

  datatype Airports = Airports(departureAirports: seq<Airport>, arrivalAirports: seq<Airport>)

  datatype Segment = Segment(
    segmentType: string,
    flightList: seq<Flight>,
    bestPricing: BestPricing,
    airports: Airports)

  datatype Data = Data(requestedFlightSegmentList: seq<Segment>)

  /** One day's answer, paired with the day that was asked for (not a flight's own date). */
  datatype Result = Result(data: Data, queryDate: Day)

  /** Go's zero values, which an unassigned `Flight` variable holds. */
  const ZeroAirport := Airport("", "", "", "")
  const ZeroFlightDetail := FlightDetail(0, ZeroAirport)
  const ZeroFlight := Flight("", "", 0, ZeroFlightDetail, ZeroFlightDetail, Airline("", ""), [], [])

  /** The intermediate record a departure/arrival object is first decoded into: the date still as text. */
  datatype AuxDetail = AuxDetail(date: string, airport: Airport)

  /** Why decoding a departure/arrival object failed. */
  datatype DetailError = MalformedJson | BadTimestamp

  /**
   The storage a `*FlightDetail` receiver points to. Its custom decoder
   first decodes the payload structurally, then parses the date text with
   the fixed layout 2006-01-02T15:04:05, and only when both succeed stores
   the date and the airport.
   */
  class FlightDetailRef {
    var date: Instant
    var airport: Airport

    function Value(): FlightDetail
      reads this
    {
      FlightDetail(date, airport)
    }

    constructor (d: FlightDetail)
      ensures Value() == d
    {
      date := d.date;
      airport := d.airport;
    }

    /**
     `decode` stands for the JSON library decoding `p` into an `AuxDetail`
     (None when the payload is malformed); `parseTimestamp` stands for
     parsing text with the layout 2006-01-02T15:04:05 (None when it does
     not match).
     */
    method UnmarshalJSON(p: seq<byte>, decode: seq<byte> -> Option<AuxDetail>,
                         parseTimestamp: string -> Option<Instant>)
      returns (err: Option<DetailError>)
      modifies this
      ensures decode(p).None? ==> err == Some(MalformedJson)
      ensures decode(p).Some? && parseTimestamp(decode(p).value.date).None? ==> err == Some(BadTimestamp)
      ensures err.Some? ==> Value() == old(Value())
      ensures err.None? <==> decode(p).Some? && parseTimestamp(decode(p).value.date).Some?
      ensures err.None? ==>
        date == parseTimestamp(decode(p).value.date).value && airport == decode(p).value.airport
    {
      var aux := decode(p);
      if aux.None? {
        return Some(MalformedJson);
      }
      var t := parseTimestamp(aux.value.date);
      if t.None? {
        return Some(BadTimestamp);
      }
      date := t.value;
      airport := aux.value.airport;
      return None;
    }
  }
}
