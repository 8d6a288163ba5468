/**
 * The current-position lookup of dashboard.py:157-182 and 229-235: a boat's
 * rows are those tagged with its name; its position at time t is the last
 * of them, in table order, whose timestamp is at or before t.
 */
module Resolver {
  import opened Wrappers
  import opened Telemetry
  import opened Selection
  import Ingestion

  /** The mask selecting the rows at or before time t. */
  function AtOrBefore(t: int): Row -> bool
  {
    (r: Row) => r.record.time <= t
  }

  /** dashboard.py:170-172: the last of the rows at or before t, or nothing when there are none. */
  function Resolve(track: seq<Row>, t: int): Option<Row>
  {
    var past := Keep(track, AtOrBefore(t));
    if past == [] then None else Some(past[|past| - 1])
  }

  /**
   * Reference definition: the index of the last row at or before t, found
   * by scanning back from the end of the track.
   */
  function LastAtOrBefore(track: seq<Row>, t: int): (k: Option<nat>)
    ensures k.Some? ==> k.value < |track| && track[k.value].record.time <= t
    ensures k.Some? ==> forall j :: k.value < j < |track| ==> track[j].record.time > t
    ensures k.None? <==> forall j :: 0 <= j < |track| ==> track[j].record.time > t
  {
    if track == [] then None
    else if track[|track| - 1].record.time <= t then Some(|track| - 1)
    else LastAtOrBefore(track[..|track| - 1], t)
  }

  /** The filter-then-last lookup finds the row at the reference index. */
  lemma {:induction false} ResolveIsLastAtOrBefore(track: seq<Row>, t: int)
    ensures Resolve(track, t) == match LastAtOrBefore(track, t)
                                 case None => None
                                 case Some(k) => Some(track[k])
  {
    if track != [] {
      var init, last := track[..|track| - 1], track[|track| - 1];
      assert track == init + [last];
      KeepConcat(init, [last], AtOrBefore(t));
      if last.record.time > t {
        assert Keep(track, AtOrBefore(t)) == Keep(init, AtOrBefore(t)) + [];
        ResolveIsLastAtOrBefore(init, t);
        var k := LastAtOrBefore(init, t);
        if k.Some? {
          assert track[k.value] == init[k.value];
        }
      }
    }
  }

  /**
   * The lookup never looks ahead: a returned row is in the track, is at or
   * before t, and no later row of the track is; nothing is returned exactly
   * when every row is after t.
   */
  lemma ResolveSpec(track: seq<Row>, t: int)
    ensures Resolve(track, t).None? <==> forall j :: 0 <= j < |track| ==> track[j].record.time > t
    ensures Resolve(track, t).Some? ==>
      exists k :: 0 <= k < |track| && track[k] == Resolve(track, t).value && track[k].record.time <= t &&
        forall j :: k < j < |track| ==> track[j].record.time > t
  {
    ResolveIsLastAtOrBefore(track, t);
  }

  /** A later query time never gives an earlier row of the track. */
  lemma {:induction false} LastAtOrBeforeMonotone(track: seq<Row>, t1: int, t2: int)
    requires t1 <= t2 && LastAtOrBefore(track, t1).Some?
    ensures LastAtOrBefore(track, t2).Some?
    ensures LastAtOrBefore(track, t1).value <= LastAtOrBefore(track, t2).value
  {
    if track[|track| - 1].record.time > t2 {
      LastAtOrBeforeMonotone(track[..|track| - 1], t1, t2);
    }
  }

  /** On a track recorded in ascending time, the resolved timestamp grows with the query time. */
  lemma ResolveMonotoneOnAscending(track: seq<Row>, t1: int, t2: int)
    requires Ascending(track) && t1 <= t2 && Resolve(track, t1).Some?
    ensures Resolve(track, t2).Some?
    ensures Resolve(track, t1).value.record.time <= Resolve(track, t2).value.record.time
  {
    ResolveIsLastAtOrBefore(track, t1);
    ResolveIsLastAtOrBefore(track, t2);
    LastAtOrBeforeMonotone(track, t1, t2);
  }

  /** With strictly increasing timestamps, querying a sample's own time returns that sample. */
  lemma ResolveAtSampleTime(track: seq<Row>, k: nat)
    requires k < |track|
    requires forall i, j :: 0 <= i < j < |track| ==> track[i].record.time < track[j].record.time
    ensures Resolve(track, track[k].record.time) == Some(track[k])
  {
    var t := track[k].record.time;
    ResolveIsLastAtOrBefore(track, t);
    var m := LastAtOrBefore(track, t);
    assert m.Some?;
    assert m.value == k;
  }

  /** dashboard.py:229-235: the record shown on the dashboard for `boat` at time t. */
  function CurrentRecord(rows: seq<Row>, boat: string, t: int): (r: Option<Row>)
    ensures r.Some? ==> r.value in rows && r.value.boat == boat && r.value.record.time <= t
    ensures r.None? <==> forall x :: x in rows && x.boat == boat ==> x.record.time > t
    ensures r.Some? ==>
      exists k :: 0 <= k < |Keep(rows, Ingestion.OfBoat(boat))| &&
        Keep(rows, Ingestion.OfBoat(boat))[k] == r.value &&
        Keep(rows, Ingestion.OfBoat(boat))[k].record.time <= t &&
        forall j :: k < j < |Keep(rows, Ingestion.OfBoat(boat))| ==>
          Keep(rows, Ingestion.OfBoat(boat))[j].record.time > t
  {
    var track := Keep(rows, Ingestion.OfBoat(boat));
    KeepMembers(rows, Ingestion.OfBoat(boat));
    ResolveSpec(track, t);
    Resolve(track, t)
  }

  /**
   * The first selected boat without a colour, if any. dashboard.py:117 gives
   * a colour to each boat with a row left in the filtered table (the colour
   * values are not modelled); `boat_colors[boat]` at line 165 raises on the
   * first selected boat without one.
   */
  function MissingColour(rows: seq<Row>, selected: seq<string>): (k: Option<nat>)
    ensures k.Some? ==> k.value < |selected| && selected[k.value] !in Boats(rows)
    ensures k.Some? ==> forall j :: 0 <= j < k.value ==> selected[j] in Boats(rows)
    ensures k.None? <==> forall j :: 0 <= j < |selected| ==> selected[j] in Boats(rows)
  {
    if selected == [] then None
    else if selected[0] !in Boats(rows) then Some(0)
    else match MissingColour(rows, selected[1..])
      case None => None
      case Some(k) => Some(k + 1)
  }

  /** The layers of the map figure: each selected boat's track and its current position. */
  datatype Layers = Layers(tracks: seq<seq<Row>>, positions: seq<Option<Row>>)

  /** The map loop stops at the first selected boat that has no colour. */
  datatype MapError = NoColour(boat: string)

  /**
   * dashboard.py:157-182 as written: the boats are those selected at line 91,
   * before the race, leg and speed filters, but the colours come from the
   * rows left after them, so a selected boat whose rows were all filtered out
   * makes the loop raise at line 165.
   */
  method AssembleMapAsWritten(rows: seq<Row>, selected: seq<string>, t: int)
    returns (res: Result<Layers, MapError>)
    ensures res.Err? <==> MissingColour(rows, selected).Some?
    ensures res.Err? ==> res.error == NoColour(selected[MissingColour(rows, selected).value])
    ensures res.Ok? ==> |res.value.tracks| == |selected| && |res.value.positions| == |selected|
    ensures res.Ok? ==> forall k :: 0 <= k < |selected| ==>
      res.value.tracks[k] == Keep(rows, Ingestion.OfBoat(selected[k])) && res.value.tracks[k] != []
    ensures res.Ok? ==> forall k :: 0 <= k < |selected| ==>
      res.value.positions[k] == CurrentRecord(rows, selected[k], t)
  {
    var tracks, positions := [], [];
    for i := 0 to |selected|
      invariant |tracks| == i && |positions| == i
      invariant forall k :: 0 <= k < i ==> selected[k] in Boats(rows)
      invariant forall k :: 0 <= k < i ==> tracks[k] == Keep(rows, Ingestion.OfBoat(selected[k]))
      invariant forall k :: 0 <= k < i ==> positions[k] == CurrentRecord(rows, selected[k], t)
    {
      if selected[i] !in Boats(rows) {
        return Err(NoColour(selected[i]));
      }
      var track := Keep(rows, Ingestion.OfBoat(selected[i]));
      tracks := tracks + [track];
      positions := positions + [Resolve(track, t)];
    }
    forall k | 0 <= k < |selected|
      ensures tracks[k] != []
    {
      KeepMembers(rows, Ingestion.OfBoat(selected[k]));
    }
    return Ok(Layers(tracks, positions));
  }

  /** A boat selected but left with no row by the later filters: the loop raises on it. */
  lemma MissingColourExample()
    ensures
      var alpha := Row("Alpha", Port, Record(0, None, 0.0, 0.0, Some(1), None, None));
      MissingColour([alpha], ["Alpha", "Bravo"]) == Some(1)
  {
    var alpha := Row("Alpha", Port, Record(0, None, 0.0, 0.0, Some(1), None, None));
    assert alpha in [alpha];
    assert "Alpha" in Boats([alpha]);
    assert "Bravo" != "Alpha";
  }

  /**
   * dashboard.py:157-182 with the colour lookup corrected so that it cannot
   * fail: for each selected boat, its full track (not cut at t) and its
   * current position; a boat with no row gets an empty track and no marker.
   */
  method AssembleMap(rows: seq<Row>, selected: seq<string>, t: int)
    returns (tracks: seq<seq<Row>>, positions: seq<Option<Row>>)
    ensures |tracks| == |selected| && |positions| == |selected|
    ensures forall k :: 0 <= k < |selected| ==> tracks[k] == Keep(rows, Ingestion.OfBoat(selected[k]))
    ensures forall k :: 0 <= k < |selected| ==>
      forall x :: x in tracks[k] <==> x in rows && x.boat == selected[k]
    ensures forall k :: 0 <= k < |selected| ==> positions[k] == CurrentRecord(rows, selected[k], t)
    ensures forall k :: 0 <= k < |selected| && positions[k].Some? ==>
      positions[k].value in tracks[k] && positions[k].value.record.time <= t
  {
    tracks, positions := [], [];
    for i := 0 to |selected|
      invariant |tracks| == i && |positions| == i
      invariant forall k :: 0 <= k < i ==> tracks[k] == Keep(rows, Ingestion.OfBoat(selected[k]))
      invariant forall k :: 0 <= k < i ==> positions[k] == Resolve(tracks[k], t)
    {
      var track := Keep(rows, Ingestion.OfBoat(selected[i]));
      tracks := tracks + [track];
      positions := positions + [Resolve(track, t)];
    }
    forall k | 0 <= k < |selected|
      ensures forall x :: x in tracks[k] <==> x in rows && x.boat == selected[k]
      ensures positions[k] == CurrentRecord(rows, selected[k], t)
      ensures positions[k].Some? ==> positions[k].value in tracks[k] && positions[k].value.record.time <= t
    {
      KeepMembers(rows, Ingestion.OfBoat(selected[k]));
      ResolveSpec(tracks[k], t);
    }
  }
}
