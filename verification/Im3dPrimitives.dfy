/**
 What im3d's immediate mode makes of the vertices between Begin and End: strips and
 loops become plain lists of points, lines and triangles.
 */
module Im3dPrimitives {
  datatype Vertex = Vertex(x: real, y: real, z: real, size: real, color: int)

  datatype Mode = NoPrimitive | Points | Lines | LineStrip | LineLoop | Triangles | TriangleStrip

  // Draw primitive types, in the order of their enumeration.
  const TRIANGLES: nat := 0
  const LINES: nat := 1
  const POINTS: nat := 2
  const TYPES: nat := 3

  function VertsPer(p: nat): (n: nat)
    ensures n in {1, 2, 3}
  {
    if p == TRIANGLES then 3 else if p == LINES then 2 else 1
  }

  function TypeOf(mode: Mode): nat {
    match mode
    case Points => POINTS
    case Lines => LINES
    case LineStrip => LINES
    case LineLoop => LINES
    case Triangles => TRIANGLES
    case TriangleStrip => TRIANGLES
    case NoPrimitive => TYPES
  }

  // The consecutive pairs (v0, v1), (v1, v2), ... of a strip, end to end.
  function Pairs(vs: seq<Vertex>): (r: seq<Vertex>)
    requires |vs| >= 2
    ensures |r| == 2 * (|vs| - 1)
    ensures r[|r| - 1] == vs[|vs| - 1] && r[0] == vs[0]
  {
    var last := |vs| - 1;
    if last == 1 then vs else Pairs(vs[..last]) + [vs[last - 1], vs[last]]
  }

  // The consecutive triples (v0, v1, v2), (v1, v2, v3), ... of a strip, end to end.
  function Triples(vs: seq<Vertex>): (r: seq<Vertex>)
    requires |vs| >= 3
    ensures |r| == 3 * (|vs| - 2)
    ensures r[|r| - 1] == vs[|vs| - 1] && r[|r| - 2] == vs[|vs| - 2]
  {
    var last := |vs| - 1;
    if last == 2 then vs else Triples(vs[..last]) + [vs[last - 2], vs[last - 1], vs[last]]
  }

  lemma {:induction false} PairsAt(vs: seq<Vertex>, k: nat)
    requires k + 1 < |vs|
    ensures Pairs(vs)[2 * k..2 * k + 2] == [vs[k], vs[k + 1]]
  {
    var last := |vs| - 1;
    if k + 1 < last {
      PairsAt(vs[..last], k);
      assert Pairs(vs)[2 * k..2 * k + 2] == Pairs(vs[..last])[2 * k..2 * k + 2];
    }
  }

  lemma {:induction false} TriplesAt(vs: seq<Vertex>, k: nat)
    requires k + 2 < |vs|
    ensures Triples(vs)[3 * k..3 * k + 3] == [vs[k], vs[k + 1], vs[k + 2]]
  {
    var last := |vs| - 1;
    if k + 2 < last {
      TriplesAt(vs[..last], k);
      assert Triples(vs)[3 * k..3 * k + 3] == Triples(vs[..last])[3 * k..3 * k + 3];
    }
  }

  // What the vertices given so far have become, before End.
  function Open(mode: Mode, vs: seq<Vertex>): seq<Vertex> {
    match mode
    case LineStrip => if |vs| < 2 then vs else Pairs(vs)
    case LineLoop => if |vs| < 2 then vs else Pairs(vs)
    case TriangleStrip => if |vs| < 3 then vs else Triples(vs)
    case NoPrimitive => []
    case _ => vs
  }

  // What they are after End: a loop is closed.
  function Expand(mode: Mode, vs: seq<Vertex>): seq<Vertex> {
    if mode == LineLoop && |vs| >= 2 then Pairs(vs) + [vs[|vs| - 1], vs[0]] else Open(mode, vs)
  }

  // Only a loop that is not empty has anything to add at the end.
  lemma ExpandIs(mode: Mode, vs: seq<Vertex>)
    requires Complete(mode, vs)
    ensures if mode == LineLoop && |Open(mode, vs)| > 0
            then |vs| > 0 && Expand(mode, vs) == Open(mode, vs) + [vs[|vs| - 1], vs[0]]
            else Expand(mode, vs) == Open(mode, vs)
  {
  }

  // What the assertions in End ask of the caller, in terms of the vertices given.
  predicate Complete(mode: Mode, vs: seq<Vertex>) {
    match mode
    case Lines => |vs| % 2 == 0
    case LineStrip => |vs| != 1
    case LineLoop => |vs| != 1
    case Triangles => |vs| % 3 == 0
    case TriangleStrip => |vs| == 0 || |vs| >= 3
    case _ => true
  }

  // Complete input makes whole primitives only.
  lemma ExpandIsWhole(mode: Mode, vs: seq<Vertex>)
    requires mode != NoPrimitive && Complete(mode, vs)
    ensures |Expand(mode, vs)| % VertsPer(TypeOf(mode)) == 0
  {
  }

  // The vertices that the next primitive of a strip shares with the ones before.
  function Shared(mode: Mode, vs: seq<Vertex>): seq<Vertex> {
    match mode
    case LineStrip => if |vs| >= 2 then [vs[|vs| - 1]] else []
    case LineLoop => if |vs| >= 2 then [vs[|vs| - 1]] else []
    case TriangleStrip => if |vs| >= 3 then [vs[|vs| - 2], vs[|vs| - 1]] else []
    case _ => []
  }

  lemma OpenStep(mode: Mode, vs: seq<Vertex>, v: Vertex)
    requires mode != NoPrimitive
    ensures Open(mode, vs + [v]) == Open(mode, vs) + Shared(mode, vs) + [v]
  {
    assert (vs + [v])[..|vs|] == vs;
    if (mode.LineStrip? || mode.LineLoop?) && |vs| == 1 { assert Pairs(vs + [v]) == vs + [v]; }
    if mode.TriangleStrip? && |vs| == 2 { assert Triples(vs + [v]) == vs + [v]; }
  }

  // The last vertices of an open strip are the last vertices given.
  lemma OpenTail(mode: Mode, vs: seq<Vertex>)
    ensures mode.LineStrip? || mode.LineLoop? ==>
              var o := Open(mode, vs);
              && (|o| >= 2 <==> |vs| >= 2)
              && (|vs| >= 1 ==> |o| >= 1 && o[|o| - 1] == vs[|vs| - 1] && o[0] == vs[0])
    ensures mode.TriangleStrip? ==>
              var o := Open(mode, vs);
              && (|o| >= 3 <==> |vs| >= 3)
              && (|vs| >= 2 ==> |o| >= 2 && o[|o| - 1] == vs[|vs| - 1] && o[|o| - 2] == vs[|vs| - 2])
  {
  }

  // The assertions that End makes, on the number of vertices stored for this primitive.
  predicate EndAssertions(mode: Mode, count: nat) {
    match mode
    case Lines => count % 2 == 0
    case LineStrip => count != 1
    case LineLoop => count != 1
    case Triangles => count % 3 == 0
    case TriangleStrip => count == 0 || count >= 3
    case _ => true
  }

  // They accept exactly the complete inputs.
  lemma AssertionsAcceptComplete(mode: Mode, vs: seq<Vertex>)
    requires mode != NoPrimitive
    ensures EndAssertions(mode, |Open(mode, vs)|) <==> Complete(mode, vs)
  {
  }
}
