/** The custom edge of src/components/DirectedEdge.tsx: a list of bend points becomes an
    SVG path of one move command and one line command per further point; edges with
    fewer than two bend points fall back to React Flow's bezier. Number rendering is a
    parameter (`fmt`), since JavaScript's number-to-string conversion is not modelled. */
module DirectedEdge {
  import opened Common
  import opened Strings

  datatype Point = Point(x: real, y: real)

  /** `${p.x},${p.y}` */
  function Coords(p: Point, fmt: real -> string): string {
    fmt(p.x) + "," + fmt(p.y)
  }

  /** `L ${p.x},${p.y}` */
  function LineTo(p: Point, fmt: real -> string): string {
    "L " + Coords(p, fmt)
  }

  /** `points.slice(1).map(...)`: one line command per point after the first. */
  function LineCommands(ps: seq<Point>, fmt: real -> string): (r: seq<string>)
    ensures |r| == |ps|
    ensures forall i :: 0 <= i < |ps| ==> r[i] == LineTo(ps[i], fmt)
  {
    if ps == [] then [] else LineCommands(ps[..|ps| - 1], fmt) + [LineTo(ps[|ps| - 1], fmt)]
  }

  /** Array.prototype.join */
  function Join(parts: seq<string>, sep: string): string {
    if parts == [] then ""
    else if |parts| == 1 then parts[0]
    else Join(parts[..|parts| - 1], sep) + sep + parts[|parts| - 1]
  }

  /** pointsToPath */
  function PointsToPath(points: seq<Point>, fmt: real -> string): (r: string)
    ensures r == "" <==> points == []
    ensures points != [] ==> StartsWith(r, "M " + Coords(points[0], fmt) + " ")
  {
    if points == [] then ""
    else
      var head := "M " + Coords(points[0], fmt) + " ";
      var r := head + Join(LineCommands(points[1..], fmt), " ");
      assert r[..|head|] == head;
      r
  }

  /** How the edge is drawn: along the bend points, or as a bezier. */
  datatype EdgeShape = Polyline(path: string, labelAnchor: Option<Point>) | Bezier

  /** The render choice: the polyline needs more than one bend point; the label, when
      there is one, sits on the middle bend point. */
  function Shape(bendPoints: Option<seq<Point>>, hasLabel: bool, fmt: real -> string): (r: EdgeShape)
    ensures r.Polyline? <==> bendPoints.Some? && |bendPoints.value| > 1
    ensures r.Polyline? ==> r.path == PointsToPath(bendPoints.value, fmt)
    ensures r.Polyline? ==> (r.labelAnchor.Some? <==> hasLabel)
    ensures r.Polyline? && hasLabel ==>
      exists i :: 0 <= i < |bendPoints.value| && i == |bendPoints.value| / 2 && r.labelAnchor.value == bendPoints.value[i]
  {
    if bendPoints.Some? && |bendPoints.value| > 1 then
      var ps := bendPoints.value;
      Polyline(PointsToPath(ps, fmt), if hasLabel then Some(ps[|ps| / 2]) else None)
    else Bezier
  }

  // ---------------------------------------------------------------------------
  // Counting commands

  function Count(s: string, c: char): nat {
    if s == [] then 0 else Count(s[..|s| - 1], c) + (if s[|s| - 1] == c then 1 else 0)
  }

  lemma {:induction false} CountAppend(a: string, b: string, c: char)
    ensures Count(a + b, c) == Count(a, c) + Count(b, c)
    decreases |b|
  {
    if b != [] {
      assert (a + b)[..|a + b| - 1] == a + b[..|b| - 1];
      assert (a + b)[|a + b| - 1] == b[|b| - 1];
      CountAppend(a, b[..|b| - 1], c);
    } else {
      assert a + b == a;
    }
  }

  lemma {:induction false} CountAbsent(s: string, c: char)
    requires c !in s
    ensures Count(s, c) == 0
    decreases |s|
  {
    if s != [] {
      assert forall ch :: ch in s[..|s| - 1] ==> ch in s;
      CountAbsent(s[..|s| - 1], c);
    }
  }

  /** A number rendering that never produces the letter L (decimal digits, signs,
      points and exponents do not). */
  ghost predicate NoL(fmt: real -> string) {
    forall v :: 'L' !in fmt(v)
  }

  lemma LineToHasOneL(p: Point, fmt: real -> string)
    requires NoL(fmt)
    ensures Count(LineTo(p, fmt), 'L') == 1
  {
    CountAppend("L ", Coords(p, fmt), 'L');
    CountAppend(fmt(p.x) + ",", fmt(p.y), 'L');
    CountAppend(fmt(p.x), ",", 'L');
    CountAbsent(fmt(p.x), 'L');
    CountAbsent(fmt(p.y), 'L');
  }

  lemma {:induction false} JoinCount(parts: seq<string>, sep: string, c: char)
    requires c !in sep
    requires forall i :: 0 <= i < |parts| ==> Count(parts[i], c) == 1
    ensures Count(Join(parts, sep), c) == |parts|
    decreases |parts|
  {
    if |parts| > 1 {
      var init := parts[..|parts| - 1];
      assert forall i :: 0 <= i < |init| ==> init[i] == parts[i];
      JoinCount(init, sep, c);
      CountAppend(Join(init, sep) + sep, parts[|parts| - 1], c);
      CountAppend(Join(init, sep), sep, c);
      CountAbsent(sep, c);
    }
  }

  /** The move command holds no L. */
  lemma MoveHasNoL(p: Point, fmt: real -> string)
    requires NoL(fmt)
    ensures Count("M " + Coords(p, fmt) + " ", 'L') == 0
  {
    CountAppend("M " + Coords(p, fmt), " ", 'L');
    CountAppend("M ", Coords(p, fmt), 'L');
    CountAppend(fmt(p.x) + ",", fmt(p.y), 'L');
    CountAppend(fmt(p.x), ",", 'L');
    CountAbsent(fmt(p.x), 'L');
    CountAbsent(fmt(p.y), 'L');
  }

  /** A path through n points has exactly n - 1 line commands. */
  lemma LineCommandCount(points: seq<Point>, fmt: real -> string)
    requires points != [] && NoL(fmt)
    ensures Count(PointsToPath(points, fmt), 'L') == |points| - 1
  {
    var head := "M " + Coords(points[0], fmt) + " ";
    var cmds := LineCommands(points[1..], fmt);
    forall i | 0 <= i < |cmds| ensures Count(cmds[i], 'L') == 1 {
      LineToHasOneL(points[1..][i], fmt);
    }
    JoinCount(cmds, " ", 'L');
    CountAppend(head, Join(cmds, " "), 'L');
    MoveHasNoL(points[0], fmt);
  }
}
