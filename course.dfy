/**
 * The course boundary overlay of dashboard.py:197-208. The course parser
 * (dashboard.py:30) returns the boundary as (longitude, latitude) pairs in
 * file order, unclosed; the map closes it by repeating the first vertex.
 */
module Course {
  import opened Wrappers

  /** A boundary vertex as the parser returns it: (longitude, latitude). */
  type Vertex = (real, real)

  /** The coordinate lists handed to the map trace. */
  datatype Trace = Trace(lat: seq<real>, lon: seq<real>)

  /** A ring: the sequence with its first element repeated at the end. */
  function Close<T>(xs: seq<T>): (r: seq<T>)
    requires xs != []
    ensures |r| == |xs| + 1
    ensures r[..|xs|] == xs
    ensures r[|r| - 1] == r[0] == xs[0]
  {
    xs + [xs[0]]
  }

  /** The first coordinate of every vertex, in order. */
  function Firsts(vs: seq<Vertex>): seq<real>
  {
    seq(|vs|, i requires 0 <= i < |vs| => vs[i].0)
  }

  /** The second coordinate of every vertex, in order. */
  function Seconds(vs: seq<Vertex>): seq<real>
  {
    seq(|vs|, i requires 0 <= i < |vs| => vs[i].1)
  }

  /** Closing each coordinate list is closing the polygon and then splitting it. */
  lemma CloseCommutesWithUnzip(vs: seq<Vertex>)
    requires vs != []
    ensures Close(Firsts(vs)) == Firsts(Close(vs))
    ensures Close(Seconds(vs)) == Seconds(Close(vs))
  {
    assert Close(Firsts(vs))[|vs|] == Firsts(Close(vs))[|vs|];
    assert Close(Seconds(vs))[|vs|] == Seconds(Close(vs))[|vs|];
  }

  /**
   * dashboard.py:198-204 as written: the unzipped first coordinates, which
   * are longitudes, are passed to the map as latitudes. An empty boundary
   * draws nothing.
   */
  function BoundaryTraceAsWritten(vs: seq<Vertex>): (tr: Option<Trace>)
    ensures tr.None? <==> vs == []
  {
    if vs == [] then None else Some(Trace(Close(Firsts(vs)), Close(Seconds(vs))))
  }

  /**
   * The boundary drawn with each vertex's own latitude and longitude: the
   * drawn points are the closed polygon's vertices, in order, ending where
   * they began. An empty boundary draws nothing.
   */
  function BoundaryTrace(vs: seq<Vertex>): (tr: Option<Trace>)
    ensures tr.None? <==> vs == []
    ensures tr.Some? ==> |tr.value.lat| == |vs| + 1 && |tr.value.lon| == |vs| + 1
    ensures tr.Some? ==> forall i :: 0 <= i < |vs| ==> tr.value.lat[i] == vs[i].1 && tr.value.lon[i] == vs[i].0
    ensures tr.Some? ==> tr.value.lat[|vs|] == tr.value.lat[0] && tr.value.lon[|vs|] == tr.value.lon[0]
  {
    if vs == [] then None else Some(Trace(Close(Seconds(vs)), Close(Firsts(vs))))
  }

  /** The boundary as written is the correct one with its axes exchanged. */
  lemma AsWrittenIsTransposed(vs: seq<Vertex>)
    ensures BoundaryTraceAsWritten(vs) == match BoundaryTrace(vs)
                                          case None => None
                                          case Some(tr) => Some(Trace(tr.lon, tr.lat))
  {
  }

  /**
   * A boundary vertex at longitude 174.75, latitude -36.85 (west of 180°,
   * in the southern hemisphere) is drawn as written at latitude 174.75,
   * which is not a latitude at all.
   */
  lemma AsWrittenMisplacesVertex()
    ensures BoundaryTraceAsWritten([(174.75, -36.85)]).value.lat[0] == 174.75
    ensures BoundaryTrace([(174.75, -36.85)]).value.lat[0] == -36.85
  {
  }

  /** dashboard.py:203-204 on three vertices: [A, B, C] is drawn as [A, B, C, A]. */
  lemma CloseThree<T>(a: T, b: T, c: T)
    ensures Close([a, b, c]) == [a, b, c, a]
  {
  }
}
