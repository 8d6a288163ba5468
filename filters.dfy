/**
 * The filter chain of dashboard.py:81-114. The table is narrowed step by
 * step, each step a boolean mask over the rows; the selections are the
 * widget values, taken as given.
 */
module Filters {
  import opened Wrappers
  import opened Telemetry
  import opened Selection

  /** The tack selectbox: "All" or one tack. */
  datatype TackChoice = AllTacks | OnlyTack(tack: Tack)

  /** The dashboard warns and halts when the boat multiselect is emptied. */
  datatype FilterError = NoBoatSelected

  /** The values of the filter widgets for one run of the script. */
  datatype Criteria = Criteria(
    start: int, end: int,          // start/end date and time inputs, seconds
    tack: TackChoice,
    boats: seq<string>,            // boat multiselect
    races: seq<Option<int>>,       // race multiselect (may list a missing value)
    legs: seq<Option<int>>,        // leg multiselect
    minSpeed: real, maxSpeed: real // speed slider
  )

  // The masks, one per filter.

  /** dashboard.py:81 */
  function InWindow(start: int, end: int): Row -> bool
  {
    (r: Row) => start <= r.record.time && r.record.time <= end
  }

  /** dashboard.py:86 */
  function HasTack(t: Tack): Row -> bool
  {
    (r: Row) => r.tack == t
  }

  /** dashboard.py:93; `isin` is membership in the selection. */
  function InBoats(boats: seq<string>): Row -> bool
  {
    (r: Row) => r.boat in boats
  }

  /** dashboard.py:102; pandas' `isin` matches a missing value against a missing value in the selection. */
  function InRaces(races: seq<Option<int>>): Row -> bool
  {
    (r: Row) => r.record.race in races
  }

  /** dashboard.py:106 */
  function InLegs(legs: seq<Option<int>>): Row -> bool
  {
    (r: Row) => r.record.leg in legs
  }

  /** dashboard.py:114; a missing speed fails both comparisons. */
  function InSpeedRange(lo: real, hi: real): Row -> bool
  {
    (r: Row) => r.record.speed.Some? && lo <= r.record.speed.value <= hi
  }

  /** The mask of a step the source skips: every row passes. */
  function Everything(): Row -> bool
  {
    (r: Row) => true
  }

  // The chain as a sequence of steps, each with the data its widget supplies.

  datatype Step =
    | TimeStep(start: int, end: int)
    | TackStep(choice: TackChoice)
    | BoatStep(boats: seq<string>)
    | RaceStep(races: seq<Option<int>>)
    | LegStep(legs: seq<Option<int>>)
    | SpeedStep(lo: real, hi: real)

  // When the optional steps run.

  /** dashboard.py:85 */
  predicate TackFilterRuns(choice: TackChoice)
  {
    choice != AllTacks
  }

  /** dashboard.py:99-101 */
  predicate RaceFilterRuns(channels: set<Channel>, races: seq<Option<int>>)
  {
    RaceNumber in channels && races != []
  }

  /** dashboard.py:103-105 */
  predicate LegFilterRuns(channels: set<Channel>, legs: seq<Option<int>>)
  {
    LegNumber in channels && legs != []
  }

  /** dashboard.py:107 */
  predicate SpeedFilterRuns(channels: set<Channel>)
  {
    BoatSpeed in channels
  }

  /** The mask a step applies; a step the source skips accepts every row. */
  function StepMask(channels: set<Channel>, s: Step): Row -> bool
  {
    match s
    case TimeStep(start, end) => InWindow(start, end)
    case TackStep(choice) => if TackFilterRuns(choice) then HasTack(choice.tack) else Everything()
    case BoatStep(boats) => InBoats(boats)
    case RaceStep(races) => if RaceFilterRuns(channels, races) then InRaces(races) else Everything()
    case LegStep(legs) => if LegFilterRuns(channels, legs) then InLegs(legs) else Everything()
    case SpeedStep(lo, hi) => if SpeedFilterRuns(channels) then InSpeedRange(lo, hi) else Everything()
  }

  /** The filters taken together: a row survives exactly when every step accepts it. */
  function Accepts(channels: set<Channel>, c: Criteria): Row -> bool
  {
    (r: Row) =>
      StepMask(channels, TimeStep(c.start, c.end))(r)
      && StepMask(channels, TackStep(c.tack))(r)
      && StepMask(channels, BoatStep(c.boats))(r)
      && StepMask(channels, RaceStep(c.races))(r)
      && StepMask(channels, LegStep(c.legs))(r)
      && StepMask(channels, SpeedStep(c.minSpeed, c.maxSpeed))(r)
  }

  /** `Accepts` spelled out step by step, with the skip conditions of the source. */
  lemma AcceptsUnfolded(ch: set<Channel>, c: Criteria, r: Row)
    ensures Accepts(ch, c)(r) == (
      InWindow(c.start, c.end)(r)
      && (TackFilterRuns(c.tack) ==> HasTack(c.tack.tack)(r))
      && InBoats(c.boats)(r)
      && (RaceFilterRuns(ch, c.races) ==> InRaces(c.races)(r))
      && (LegFilterRuns(ch, c.legs) ==> InLegs(c.legs)(r))
      && (SpeedFilterRuns(ch) ==> InSpeedRange(c.minSpeed, c.maxSpeed)(r)))
  {
    var tack, race := StepMask(ch, TackStep(c.tack)), StepMask(ch, RaceStep(c.races));
    var leg, speed := StepMask(ch, LegStep(c.legs)), StepMask(ch, SpeedStep(c.minSpeed, c.maxSpeed));
    assert tack(r) == (TackFilterRuns(c.tack) ==> HasTack(c.tack.tack)(r));
    assert race(r) == (RaceFilterRuns(ch, c.races) ==> InRaces(c.races)(r));
    assert leg(r) == (LegFilterRuns(ch, c.legs) ==> InLegs(c.legs)(r));
    assert speed(r) == (SpeedFilterRuns(ch) ==> InSpeedRange(c.minSpeed, c.maxSpeed)(r));
  }

  /**
   * dashboard.py:81-114: `df` reassigned through the chain. The result is
   * one conjunctive selection of the input rows, or the empty-selection halt.
   */
  method ApplyFilters(f: Frame, c: Criteria) returns (res: Result<Frame, FilterError>)
    ensures res.Err? <==> c.boats == []
    ensures res.Ok? ==> res.value.channels == f.channels
    ensures res.Ok? ==> res.value.rows == Keep(f.rows, Accepts(f.channels, c))
  {
    ghost var mask: Row -> bool := InWindow(c.start, c.end);
    var rows := Keep(f.rows, InWindow(c.start, c.end));
    if c.tack != AllTacks {
      ghost var next := (r: Row) => mask(r) && HasTack(c.tack.tack)(r);
      KeepKeep(f.rows, mask, HasTack(c.tack.tack), next);
      rows, mask := Keep(rows, HasTack(c.tack.tack)), next;
    }
    if c.boats != [] {
      ghost var next := (r: Row) => mask(r) && InBoats(c.boats)(r);
      KeepKeep(f.rows, mask, InBoats(c.boats), next);
      rows, mask := Keep(rows, InBoats(c.boats)), next;
    } else {
      return Err(NoBoatSelected);
    }
    if RaceNumber in f.channels {
      if c.races != [] {
        ghost var next := (r: Row) => mask(r) && InRaces(c.races)(r);
        KeepKeep(f.rows, mask, InRaces(c.races), next);
        rows, mask := Keep(rows, InRaces(c.races)), next;
      }
    }
    if LegNumber in f.channels {
      if c.legs != [] {
        ghost var next := (r: Row) => mask(r) && InLegs(c.legs)(r);
        KeepKeep(f.rows, mask, InLegs(c.legs), next);
        rows, mask := Keep(rows, InLegs(c.legs)), next;
      }
    }
    if BoatSpeed in f.channels {
      ghost var next := (r: Row) => mask(r) && InSpeedRange(c.minSpeed, c.maxSpeed)(r);
      KeepKeep(f.rows, mask, InSpeedRange(c.minSpeed, c.maxSpeed), next);
      rows, mask := Keep(rows, InSpeedRange(c.minSpeed, c.maxSpeed)), next;
    }
    forall r | r in f.rows
      ensures mask(r) == Accepts(f.channels, c)(r)
    {
      AcceptsUnfolded(f.channels, c, r);
    }
    KeepCongruent(f.rows, mask, Accepts(f.channels, c));
    res := Ok(Frame(f.channels, rows));
  }

  /**
   * What survives the chain: exactly the rows every running step accepts,
   * each as often as in the input, in the input's order.
   */
  lemma FilteredRows(f: Frame, c: Criteria)
    ensures forall r :: r in Keep(f.rows, Accepts(f.channels, c)) <==> r in f.rows && Accepts(f.channels, c)(r)
    ensures forall r :: multiset(Keep(f.rows, Accepts(f.channels, c)))[r]
                     == if Accepts(f.channels, c)(r) then multiset(f.rows)[r] else 0
    ensures IsSubsequence(Keep(f.rows, Accepts(f.channels, c)), f.rows)
  {
    KeepMembers(f.rows, Accepts(f.channels, c));
    KeepCounts(f.rows, Accepts(f.channels, c));
    KeepSubsequence(f.rows, Accepts(f.channels, c));
  }

  /** One filter step on its own; an empty boat selection halts. */
  function ApplyStep(f: Frame, s: Step): (res: Result<Frame, FilterError>)
    ensures res.Err? <==> s == BoatStep([])
    ensures res.Ok? ==> res.value.channels == f.channels && |res.value.rows| <= |f.rows|
    ensures res.Ok? ==> forall x :: x in res.value.rows <==> x in f.rows && StepMask(f.channels, s)(x)
    ensures res.Ok? ==> forall x :: multiset(res.value.rows)[x]
                                  == if StepMask(f.channels, s)(x) then multiset(f.rows)[x] else 0
    ensures res.Ok? ==> IsSubsequence(res.value.rows, f.rows)
  {
    if s == BoatStep([]) then Err(NoBoatSelected)
    else
      KeepMembers(f.rows, StepMask(f.channels, s));
      KeepCounts(f.rows, StepMask(f.channels, s));
      KeepSubsequence(f.rows, StepMask(f.channels, s));
      Ok(Frame(f.channels, Keep(f.rows, StepMask(f.channels, s))))
  }

  /** The next step of the chain, unless the chain has already halted. */
  function AndThen(res: Result<Frame, FilterError>, s: Step): Result<Frame, FilterError>
  {
    match res
    case Ok(f) => ApplyStep(f, s)
    case Err(e) => Err(e)
  }

  /** dashboard.py:81-114 as six steps applied one after another, in source order. */
  function RunChain(f: Frame, c: Criteria): Result<Frame, FilterError>
  {
    var afterTime := ApplyStep(f, TimeStep(c.start, c.end));
    var afterTack := AndThen(afterTime, TackStep(c.tack));
    var afterBoats := AndThen(afterTack, BoatStep(c.boats));
    var afterRaces := AndThen(afterBoats, RaceStep(c.races));
    var afterLegs := AndThen(afterRaces, LegStep(c.legs));
    AndThen(afterLegs, SpeedStep(c.minSpeed, c.maxSpeed))
  }

  /**
   * The steps chained in source order are the chain: they halt exactly on an
   * empty boat selection, and otherwise select the rows `Accepts` passes.
   */
  lemma ChainInSourceOrder(f: Frame, c: Criteria)
    ensures c.boats == [] ==> RunChain(f, c) == Err(NoBoatSelected)
    ensures c.boats != [] ==> RunChain(f, c) == Ok(Frame(f.channels, Keep(f.rows, Accepts(f.channels, c))))
  {
    if c.boats != [] {
      var ch := f.channels;
      var m1 := StepMask(ch, TimeStep(c.start, c.end));
      var m2 := StepMask(ch, TackStep(c.tack));
      var m3 := StepMask(ch, BoatStep(c.boats));
      var m4 := StepMask(ch, RaceStep(c.races));
      var m5 := StepMask(ch, LegStep(c.legs));
      var m6 := StepMask(ch, SpeedStep(c.minSpeed, c.maxSpeed));
      var m12 := (r: Row) => m1(r) && m2(r);
      var m123 := (r: Row) => m12(r) && m3(r);
      var m1234 := (r: Row) => m123(r) && m4(r);
      var m12345 := (r: Row) => m1234(r) && m5(r);
      var m123456 := (r: Row) => m12345(r) && m6(r);
      KeepKeep(f.rows, m1, m2, m12);
      KeepKeep(f.rows, m12, m3, m123);
      KeepKeep(f.rows, m123, m4, m1234);
      KeepKeep(f.rows, m1234, m5, m12345);
      KeepKeep(f.rows, m12345, m6, m123456);
      KeepCongruent(f.rows, m123456, Accepts(ch, c));
    }
  }

  /** For fixed selections, any two filters give the same rows in either order. */
  lemma StepsCommute(f: Frame, a: Step, b: Step)
    ensures AndThen(ApplyStep(f, a), b) == AndThen(ApplyStep(f, b), a)
  {
    if a != BoatStep([]) && b != BoatStep([]) {
      KeepCommutes(f.rows, StepMask(f.channels, a), StepMask(f.channels, b));
    }
  }

  /** "All" tacks, an empty race or leg selection, or an absent column leave the rows as they are. */
  lemma SkippedStepsKeepEverything(f: Frame, s: Step)
    requires s == TackStep(AllTacks) || s == RaceStep([]) || s == LegStep([])
          || (s.RaceStep? && RaceNumber !in f.channels)
          || (s.LegStep? && LegNumber !in f.channels)
          || (s.SpeedStep? && BoatSpeed !in f.channels)
    ensures ApplyStep(f, s) == Ok(f)
  {
    KeepAll(f.rows, StepMask(f.channels, s));
  }

  /** An inverted time window (start after end) keeps no row. */
  lemma InvertedWindowEmpty(rows: seq<Row>, start: int, end: int)
    requires start > end
    ensures Keep(rows, InWindow(start, end)) == []
  {
    KeepNone(rows, InWindow(start, end));
  }

  /**
   * dashboard.py:90: the boat multiselect offers the boats of the rows left
   * by the time window and the tack selection.
   */
  function BoatOptions(f: Frame, c: Criteria): set<string>
  {
    Boats(Keep(Keep(f.rows, StepMask(f.channels, TimeStep(c.start, c.end))), StepMask(f.channels, TackStep(c.tack))))
  }

  /**
   * dashboard.py:81-96: with an inverted window there is no boat to offer,
   * so a selection made from the options is empty and the chain halts.
   */
  lemma InvertedWindowHalts(f: Frame, c: Criteria)
    requires c.start > c.end
    ensures BoatOptions(f, c) == {}
    ensures (forall b :: b in c.boats ==> b in BoatOptions(f, c)) ==>
              c.boats == [] && RunChain(f, c) == Err(NoBoatSelected)
  {
    InvertedWindowEmpty(f.rows, c.start, c.end);
    KeepNone([], StepMask(f.channels, TackStep(c.tack)));
    assert BoatOptions(f, c) == {};
    if c.boats != [] {
      assert c.boats[0] in c.boats;
    }
    ChainInSourceOrder(f, c);
  }

  // The widgets' default bounds.

  /** The smallest timestamp of the table: the default start (dashboard.py:67). */
  function MinTime(rows: seq<Row>): (t: int)
    requires rows != []
    ensures forall i :: 0 <= i < |rows| ==> t <= rows[i].record.time
    ensures exists i :: 0 <= i < |rows| && t == rows[i].record.time
  {
    if |rows| == 1 then rows[0].record.time
    else
      var m := MinTime(rows[1..]);
      if rows[0].record.time <= m then rows[0].record.time else m
  }

  /** The largest timestamp of the table: the default end (dashboard.py:68). */
  function MaxTime(rows: seq<Row>): (t: int)
    requires rows != []
    ensures forall i :: 0 <= i < |rows| ==> rows[i].record.time <= t
    ensures exists i :: 0 <= i < |rows| && t == rows[i].record.time
  {
    if |rows| == 1 then rows[0].record.time
    else
      var m := MaxTime(rows[1..]);
      if rows[0].record.time >= m then rows[0].record.time else m
  }

  /** dashboard.py:67-81: left at their defaults, the date and time inputs keep every row. */
  lemma DefaultWindowKeepsAll(rows: seq<Row>)
    requires rows != []
    ensures Keep(rows, InWindow(MinTime(rows), MaxTime(rows))) == rows
  {
    var lo, hi := MinTime(rows), MaxTime(rows);
    forall r | r in rows ensures InWindow(lo, hi)(r) {
      var i :| 0 <= i < |rows| && rows[i] == r;
    }
    KeepAll(rows, InWindow(lo, hi));
  }

  /** The recorded speeds, skipping missing values as pandas' min and max do. */
  function Speeds(rows: seq<Row>): (v: seq<real>)
    ensures forall x :: x in v <==> exists r :: r in rows && r.record.speed == Some(x)
  {
    if rows == [] then []
    else
      assert rows == [rows[0]] + rows[1..];
      (if rows[0].record.speed.Some? then [rows[0].record.speed.value] else []) + Speeds(rows[1..])
  }

  function MinOf(v: seq<real>): (m: real)
    requires v != []
    ensures m in v && forall x :: x in v ==> m <= x
  {
    if |v| == 1 then v[0]
    else
      var m := MinOf(v[1..]);
      assert v == [v[0]] + v[1..];
      if v[0] <= m then v[0] else m
  }

  function MaxOf(v: seq<real>): (m: real)
    requires v != []
    ensures m in v && forall x :: x in v ==> x <= m
  {
    if |v| == 1 then v[0]
    else
      var m := MaxOf(v[1..]);
      assert v == [v[0]] + v[1..];
      if v[0] >= m then v[0] else m
  }

  predicate HasSpeed(r: Row)
  {
    r.record.speed.Some?
  }

  /**
   * dashboard.py:107-114: left at its default (the column's min and max),
   * the speed slider keeps exactly the rows that have a speed value, so
   * every row when none is missing.
   */
  lemma DefaultSpeedRangeKeepsMeasured(rows: seq<Row>)
    requires Speeds(rows) != []
    ensures Keep(rows, InSpeedRange(MinOf(Speeds(rows)), MaxOf(Speeds(rows)))) == Keep(rows, (r: Row) => HasSpeed(r))
    ensures (forall r :: r in rows ==> HasSpeed(r)) ==>
              Keep(rows, InSpeedRange(MinOf(Speeds(rows)), MaxOf(Speeds(rows)))) == rows
  {
    var lo, hi := MinOf(Speeds(rows)), MaxOf(Speeds(rows));
    forall r | r in rows ensures InSpeedRange(lo, hi)(r) == HasSpeed(r) {
      if HasSpeed(r) {
        assert r.record.speed.value in Speeds(rows);
      }
    }
    KeepCongruent(rows, InSpeedRange(lo, hi), (r: Row) => HasSpeed(r));
    if forall r :: r in rows ==> HasSpeed(r) {
      KeepAll(rows, (r: Row) => HasSpeed(r));
    }
  }
}
