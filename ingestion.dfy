/**
 * The upload loop of dashboard.py:50-59: each uploaded file's rows are
 * tagged with the boat name derived from the file name and with their tack,
 * and the files are concatenated in upload order.
 */
module Ingestion {
  import opened Wrappers
  import opened Telemetry
  import opened Selection
  import BoatNames

  /** The dashboard halts (`st.stop()`) until at least one file is uploaded. */
  datatype IngestError = NoFileUploaded

  /** One record as it appears in the unified table. */
  function TagRecord(boat: string, r: Record): (row: Row)
    ensures row.boat == boat && row.record == r
    ensures row.tack == Starboard <==> r.windAngle.Some? && r.windAngle.value > 0.0
  {
    Row(boat, TackOf(r.windAngle), r)
  }

  /** The rows one file contributes, each tagged with the file's boat name. */
  function TagFile(f: LogFile): (rows: seq<Row>)
    ensures |rows| == |f.records|
  {
    var boat := BoatNames.BoatName(f.name);
    seq(|f.records|, j requires 0 <= j < |f.records| => TagRecord(boat, f.records[j]))
  }

  /** Record j of a file becomes row j of its part, tagged with the file's boat name. */
  lemma TagFileAt(f: LogFile, j: nat)
    requires j < |f.records|
    ensures TagFile(f)[j] == TagRecord(BoatNames.BoatName(f.name), f.records[j])
  {
  }

  /** The tagged rows of all files, concatenated in upload order. */
  function Tagged(files: seq<LogFile>): seq<Row>
  {
    if files == [] then [] else Tagged(files[..|files| - 1]) + TagFile(files[|files| - 1])
  }

  /** The columns of the concatenated table: every column of any file. */
  function AllChannels(files: seq<LogFile>): set<Channel>
  {
    if files == [] then {} else AllChannels(files[..|files| - 1]) + files[|files| - 1].channels
  }

  /** Total number of records in `files`. */
  function RowCount(files: seq<LogFile>): nat
  {
    if files == [] then 0 else RowCount(files[..|files| - 1]) + |files[|files| - 1].records|
  }

  /** dashboard.py:47-59: the upload loop. */
  method Ingest(files: seq<LogFile>) returns (r: Result<Frame, IngestError>)
    ensures r.Err? <==> files == []
    ensures r.Ok? ==> r.value == Frame(AllChannels(files), Tagged(files))
  {
    if files == [] {
      return Err(NoFileUploaded);
    }
    var rows: seq<Row> := [];
    var channels: set<Channel> := {};
    for i := 0 to |files|
      invariant rows == Tagged(files[..i])
      invariant channels == AllChannels(files[..i])
    {
      assert files[..i + 1][..i] == files[..i];
      rows := rows + TagFile(files[i]);
      channels := channels + files[i].channels;
    }
    assert files[..|files|] == files;
    return Ok(Frame(channels, rows));
  }

  /** The unified table has one row per record of every file. */
  lemma {:induction false} TaggedLength(files: seq<LogFile>)
    ensures |Tagged(files)| == RowCount(files)
  {
    if files != [] {
      TaggedLength(files[..|files| - 1]);
    }
  }

  /**
   * Record j of file k sits at offset RowCount(files[..k]) + j of the
   * unified table, tagged with that file's boat name.
   */
  lemma {:induction false} TaggedAt(files: seq<LogFile>, k: nat, j: nat)
    requires k < |files| && j < |files[k].records|
    ensures RowCount(files[..k]) + j < |Tagged(files)|
    ensures Tagged(files)[RowCount(files[..k]) + j] == TagRecord(BoatNames.BoatName(files[k].name), files[k].records[j])
  {
    TaggedAtPart(files, k, j);
    TagFileAt(files[k], j);
  }

  lemma {:induction false} TaggedAtPart(files: seq<LogFile>, k: nat, j: nat)
    requires k < |files| && j < |files[k].records|
    ensures RowCount(files[..k]) + j < |Tagged(files)|
    ensures Tagged(files)[RowCount(files[..k]) + j] == TagFile(files[k])[j]
  {
    var init, last := files[..|files| - 1], files[|files| - 1];
    var head, tail := Tagged(init), TagFile(last);
    assert Tagged(files) == head + tail;
    assert |head| == RowCount(init) by {
      TaggedLength(init);
    }
    if k == |files| - 1 {
      assert files[..k] == init;
      assert (head + tail)[|head| + j] == tail[j];
    } else {
      assert init[..k] == files[..k] && init[k] == files[k];
      assert RowCount(files[..k]) + j < |head| && head[RowCount(files[..k]) + j] == TagFile(files[k])[j] by {
        TaggedAtPart(init, k, j);
      }
      assert (head + tail)[RowCount(files[..k]) + j] == head[RowCount(files[..k]) + j];
    }
  }

  /**
   * Concatenating files that are each well formed gives a table in which a
   * row has a value only in a column of the union.
   */
  lemma {:induction false} TaggedWellFormed(files: seq<LogFile>)
    requires forall k :: 0 <= k < |files| ==> WellFormed(files[k])
    ensures WellFormedFrame(Frame(AllChannels(files), Tagged(files)))
  {
    if files != [] {
      var init, last := files[..|files| - 1], files[|files| - 1];
      TaggedWellFormed(init);
      forall x | x in Tagged(files)
        ensures ValuesIn(AllChannels(files), x.record)
      {
        if x in TagFile(last) {
          var j :| 0 <= j < |TagFile(last)| && TagFile(last)[j] == x;
          assert last.records[j] in last.records;
        }
      }
    }
  }

  /** The mask selecting the rows tagged with `boat`. */
  function OfBoat(boat: string): Row -> bool
  {
    (r: Row) => r.boat == boat
  }

  /** Files whose names give `boat`. */
  function NamesBoat(boat: string): LogFile -> bool
  {
    (f: LogFile) => BoatNames.BoatName(f.name) == boat
  }

  /** Appending a file appends its tagged rows. */
  lemma TaggedSnoc(init: seq<LogFile>, last: LogFile)
    ensures Tagged(init + [last]) == Tagged(init) + TagFile(last)
  {
    assert (init + [last])[..|init|] == init;
  }

  /** The tagged rows of one file all carry the boat name of that file. */
  lemma TagFileBoat(f: LogFile, boat: string)
    ensures Keep(TagFile(f), OfBoat(boat)) == if NamesBoat(boat)(f) then TagFile(f) else []
  {
    if NamesBoat(boat)(f) {
      KeepAll(TagFile(f), OfBoat(boat));
    } else {
      KeepNone(TagFile(f), OfBoat(boat));
    }
  }

  /**
   * The rows of one boat are exactly the tagged rows of the files whose
   * names give that boat, in upload order: two files that name the same
   * boat are merged into one track.
   */
  lemma {:induction false} TaggedBoatTrack(files: seq<LogFile>, boat: string)
    ensures Keep(Tagged(files), OfBoat(boat)) == Tagged(Keep(files, NamesBoat(boat)))
  {
    var ofBoat, named := OfBoat(boat), NamesBoat(boat);
    if files != [] {
      var init, last := files[..|files| - 1], files[|files| - 1];
      assert files == init + [last];
      assert Keep(Tagged(files), ofBoat) == Keep(Tagged(init), ofBoat) + Keep(TagFile(last), ofBoat) by {
        TaggedSnoc(init, last);
        KeepConcat(Tagged(init), TagFile(last), ofBoat);
      }
      assert Keep(Tagged(init), ofBoat) == Tagged(Keep(init, named)) by {
        TaggedBoatTrack(init, boat);
      }
      assert Keep(files, named) == Keep(init, named) + Keep([last], named) by {
        KeepConcat(init, [last], named);
      }
      TagFileBoat(last, boat);
      if named(last) {
        assert Keep([last], named) == [last];
        TaggedSnoc(Keep(init, named), last);
      } else {
        assert Keep([last], named) == [];
        assert Keep(init, named) + [] == Keep(init, named);
        assert Tagged(Keep(init, named)) + [] == Tagged(Keep(init, named));
      }
    }
  }

  /** Every row of the unified table belongs to the boat named by some uploaded file. */
  lemma {:induction false} TaggedBoatsNamed(files: seq<LogFile>, row: Row)
    requires row in Tagged(files)
    ensures exists f :: f in files && row.boat == BoatNames.BoatName(f.name)
  {
    var init, last := files[..|files| - 1], files[|files| - 1];
    if row in Tagged(init) {
      TaggedBoatsNamed(init, row);
      var f :| f in init && row.boat == BoatNames.BoatName(f.name);
      assert f in files;
    } else {
      assert row in TagFile(last);
      assert last in files;
    }
  }
}
