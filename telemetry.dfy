/**
 * The rows of the unified boat-log table. A CSV row is taken as already
 * parsed: DATETIME as whole seconds, the numeric channels as reals, and a
 * missing cell (pandas' NaN) as None.
 */
module Telemetry {
  import opened Wrappers

  /** The optional columns that the filters look for by name. */
  datatype Channel =
    | RaceNumber  // TRK_RACE_NUM_unk
    | LegNumber   // TRK_LEG_NUM_unk
    | BoatSpeed   // BOAT_SPEED_km_h_1

  /** One parsed line of a boat log. */
  datatype Record = Record(
    time: int,                 // DATETIME, seconds
    windAngle: Option<real>,   // AWA_SGP_deg, signed degrees
    latitude: real,            // LATITUDE_GPS_unk
    longitude: real,           // LONGITUDE_GPS_unk
    race: Option<int>,         // TRK_RACE_NUM_unk
    leg: Option<int>,          // TRK_LEG_NUM_unk
    speed: Option<real>        // BOAT_SPEED_km_h_1, km/h
  )

  /** One uploaded CSV file: its name, the optional columns its header has, its rows. */
  datatype LogFile = LogFile(name: string, channels: set<Channel>, records: seq<Record>)

  /**
   * A record has no value in a column its file lacks: pandas fills such
   * cells with NaN when the files are concatenated.
   */
  predicate ValuesIn(channels: set<Channel>, r: Record)
  {
    && (RaceNumber !in channels ==> r.race.None?)
    && (LegNumber !in channels ==> r.leg.None?)
    && (BoatSpeed !in channels ==> r.speed.None?)
  }

  /** A file as a CSV can hold it: no record has a value in a column the header lacks. */
  predicate WellFormed(f: LogFile)
  {
    forall r :: r in f.records ==> ValuesIn(f.channels, r)
  }

  datatype Tack = Starboard | Port

  /** A row of the unified table: the record tagged with its boat and tack. */
  datatype Row = Row(boat: string, tack: Tack, record: Record)

  /** The unified table: which optional columns exist, and its rows in order. */
  datatype Frame = Frame(channels: set<Channel>, rows: seq<Row>)

  /**
   * dashboard.py:59: Starboard when the angle is above zero, else Port. A missing
   * angle compares false, so it gives Port.
   */
  function TackOf(windAngle: Option<real>): (t: Tack)
    ensures t == Starboard <==> windAngle.Some? && windAngle.value > 0.0
  {
    match windAngle
    case Some(a) => if a > 0.0 then Starboard else Port
    case None => Port
  }

  /** Positive angles are starboard; zero and negative angles are port. */
  lemma TackExamples()
    ensures TackOf(Some(5.0)) == Starboard
    ensures TackOf(Some(0.0)) == Port
    ensures TackOf(Some(-5.0)) == Port
  {
  }

  /** A table in which no row has a value in a column the table lacks. */
  predicate WellFormedFrame(fr: Frame)
  {
    forall x :: x in fr.rows ==> ValuesIn(fr.channels, x.record)
  }

  /** Ascending timestamps, as a boat log is recorded. */
  predicate Ascending(rows: seq<Row>)
  {
    forall i, j :: 0 <= i < j < |rows| ==> rows[i].record.time <= rows[j].record.time
  }

  /** The distinct boat names of some rows: `df["boat_name"].unique()` as a set. */
  function Boats(rows: seq<Row>): set<string>
  {
    set x | x in rows :: x.boat
  }
}
