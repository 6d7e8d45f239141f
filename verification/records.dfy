/**
 * The trip record after loading, the dataframe that holds trips and the
 * tables the location step writes; and the two all-or-nothing coordinate
 * filters the pipeline applies to trips.
 */
module Records {
  import opened Common
  import opened H3

  /** `strftime("%w")`: 0 is Sunday, 6 is Saturday. */
  type Weekday = d: nat | d < 7

  /** Seconds since midnight of the same day. */
  type DaySeconds = s: real | 0.0 <= s < 86400.0

  /** A parsed `pickup_datetime`, reduced to what the features read from it. */
  datatype Timestamp = Timestamp(weekday: Weekday, secondsOfDay: DaySeconds)

  /** The two point roles; their names are the column prefixes "pickup" and "dropoff". */
  datatype Role = Pickup | Dropoff

  function RolePrefix(role: Role): string {
    match role
    case Pickup => "pickup"
    case Dropoff => "dropoff"
  }

  /**
   * One row of a raw train or test frame, with its index label (from the
   * key's digest), and the `pickup_hexagon` / `dropoff_hexagon` columns the
   * hexagon step writes (None: absent or NaN).
   */
  datatype Trip = Trip(
    index: nat,
    key: string,
    fareAmount: Num,
    pickupDatetime: Timestamp,
    pickupLongitude: Num,
    pickupLatitude: Num,
    dropoffLongitude: Num,
    dropoffLatitude: Num,
    passengerCount: int,
    pickupHexagon: Option<Cell>,
    dropoffHexagon: Option<Cell>)

  function Latitude(t: Trip, role: Role): Num {
    if role == Pickup then t.pickupLatitude else t.dropoffLatitude
  }

  function Longitude(t: Trip, role: Role): Num {
    if role == Pickup then t.pickupLongitude else t.dropoffLongitude
  }

  function Hexagon(t: Trip, role: Role): Option<Cell> {
    if role == Pickup then t.pickupHexagon else t.dropoffHexagon
  }

  function WithHexagon(t: Trip, role: Role, h: Option<Cell>): Trip {
    if role == Pickup then t.(pickupHexagon := h) else t.(dropoffHexagon := h)
  }

  /**
   * All four coordinates strictly inside latLo < lat < latHi and
   * lonLo < lon < lonHi, pickup and dropoff alike; a NaN fails.
   */
  predicate InBox(t: Trip, latLo: real, latHi: real, lonLo: real, lonHi: real) {
    && Above(t.pickupLatitude, latLo) && Below(t.pickupLatitude, latHi)
    && Above(t.pickupLongitude, lonLo) && Below(t.pickupLongitude, lonHi)
    && Above(t.dropoffLatitude, latLo) && Below(t.dropoffLatitude, latHi)
    && Above(t.dropoffLongitude, lonLo) && Below(t.dropoffLongitude, lonHi)
  }

  /** The validity filter of the hexagon step and of the coordinate feature. */
  predicate InWorld(t: Trip) {
    InBox(t, -90.0, 90.0, -180.0, 180.0)
  }

  /** The New York box behind the `is_correct` flag. */
  predicate InNycBox(t: Trip) {
    InBox(t, 40.0, 42.0, -75.0, -72.0)
  }

  /** A trip in the New York box passes the world filter too. */
  lemma NycBoxInsideWorld(t: Trip)
    ensures InNycBox(t) ==> InWorld(t)
  {
  }

  /**
   * A dataframe of trips read from one parquet file. The columns the
   * feature step adds are fields of their own, empty until written.
   */
  class TripFrame {
    var rows: seq<Trip>
    var isCorrect: seq<real>
    var timeInWeek: seq<real>

    constructor (rows: seq<Trip>)
      ensures this.rows == rows && isCorrect == [] && timeInWeek == []
    {
      this.rows := rows;
      isCorrect := [];
      timeInWeek := [];
    }
  }

  /** A dataframe with named columns, as the location step writes them. */
  datatype Table = Table(columns: seq<string>, index: seq<nat>, rows: seq<seq<Datum>>)
}
