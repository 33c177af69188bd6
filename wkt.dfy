/**
 * The live path's geometry text: `to_linestring_wkt` and `to_point_wkt` render feed
 * points as Well-Known Text, and the parsers below read that text back, so that the
 * rendering is shown to lose nothing (points, their coordinates and their order).
 */
module Wkt {
  import opened Wrappers
  import opened Feed

  /** A coordinate's text is non-empty and holds none of the characters WKT separates with. */
  predicate WellFormedCoord(c: Coord) {
    |c| > 0 && forall i :: 0 <= i < |c| ==> c[i] != ' ' && c[i] != ',' && c[i] != '(' && c[i] != ')'
  }

  predicate WellFormedPoint(p: Point) {
    WellFormedCoord(p.x) && WellFormedCoord(p.y)
  }

  predicate WellFormedPoints(pts: seq<Point>) {
    forall i :: 0 <= i < |pts| ==> WellFormedPoint(pts[i])
  }

  /** One point as `"x y"`. */
  function PointText(p: Point): string {
    p.x + " " + p.y
  }

  /** The points' texts joined by `", "`. */
  function JoinPoints(pts: seq<Point>): string {
    if |pts| == 0 then ""
    else if |pts| == 1 then PointText(pts[0])
    else PointText(pts[0]) + ", " + JoinPoints(pts[1..])
  }

  /** `to_linestring_wkt`. */
  function ToLinestringWkt(pts: seq<Point>): string {
    "LINESTRING(" + JoinPoints(pts) + ")"
  }

  /** `to_point_wkt`. */
  function ToPointWkt(p: Point): string {
    "POINT(" + PointText(p) + ")"
  }

  // ----- reading the text back -----

  /** The first position of `c` in `s`, if any. */
  function FirstIndex(s: string, c: char): (r: Option<nat>)
    ensures r.Some? ==> r.value < |s| && s[r.value] == c && forall i :: 0 <= i < r.value ==> s[i] != c
    ensures r.None? ==> forall i :: 0 <= i < |s| ==> s[i] != c
  {
    if |s| == 0 then None
    else if s[0] == c then Some(0)
    else match FirstIndex(s[1..], c)
      case None => None
      case Some(k) => Some(k + 1)
  }

  /** Reads `"x y"`. */
  function ParsePoint(s: string): Option<Point> {
    match FirstIndex(s, ' ')
    case None => None
    case Some(k) =>
      if WellFormedCoord(s[..k]) && WellFormedCoord(s[k + 1..]) then Some(Point(s[..k], s[k + 1..])) else None
  }

  /** Reads point texts separated by `", "`. */
  function ParsePoints(s: string): Option<seq<Point>>
    decreases |s|
  {
    if s == "" then Some([])
    else match FirstIndex(s, ',')
      case None =>
        (match ParsePoint(s)
         case None => None
         case Some(p) => Some([p]))
      case Some(k) =>
        if k + 2 < |s| && s[k + 1] == ' ' then
          match (ParsePoint(s[..k]), ParsePoints(s[k + 2..]))
          case (Some(p), Some(ps)) => if ps == [] then None else Some([p] + ps)
          case _ => None
        else None
  }

  function ParseLinestringWkt(s: string): Option<seq<Point>> {
    if |s| >= 12 && s[..11] == "LINESTRING(" && s[|s| - 1] == ')' then ParsePoints(s[11..|s| - 1]) else None
  }

  function ParsePointWkt(s: string): Option<Point> {
    if |s| >= 7 && s[..6] == "POINT(" && s[|s| - 1] == ')' then ParsePoint(s[6..|s| - 1]) else None
  }

  // ----- round trips -----

  /** A character that no well-formed coordinate holds is found in `a + [c] + b` right after `a`. */
  lemma FirstIndexAfter(a: string, c: char, b: string)
    requires forall i :: 0 <= i < |a| ==> a[i] != c
    ensures FirstIndex(a + [c] + b, c) == Some(|a|)
  {
    var s := a + [c] + b;
    assert s[|a|] == c;
    assert forall i :: 0 <= i < |a| ==> s[i] == a[i];
  }

  lemma PointTextHasNoComma(p: Point)
    requires WellFormedPoint(p)
    ensures forall i :: 0 <= i < |PointText(p)| ==> PointText(p)[i] != ','
  {
    var t := PointText(p);
    forall i | 0 <= i < |t| ensures t[i] != ',' {
      if i < |p.x| {
        assert t[i] == p.x[i];
      } else if i > |p.x| {
        assert t[i] == p.y[i - |p.x| - 1];
      }
    }
  }

  /** A well-formed point is read back from its text. */
  lemma PointRoundTrip(p: Point)
    requires WellFormedPoint(p)
    ensures ParsePoint(PointText(p)) == Some(p)
  {
    FirstIndexAfter(p.x, ' ', p.y);
    assert p.x + " " + p.y == p.x + [' '] + p.y;
    var t := PointText(p);
    assert t[..|p.x|] == p.x;
    assert t[|p.x| + 1..] == p.y;
  }

  /** Whatever `ParsePoint` accepts is the text of the well-formed point it returns. */
  lemma ParsePointSound(s: string)
    requires ParsePoint(s).Some?
    ensures WellFormedPoint(ParsePoint(s).value) && PointText(ParsePoint(s).value) == s
  {
    var k := FirstIndex(s, ' ').value;
    assert s[..k] + " " + s[k + 1..] == s;
  }

  /** The joined text of well-formed points reads back as those points, in order. */
  lemma {:induction false} PointsRoundTrip(pts: seq<Point>)
    requires WellFormedPoints(pts)
    ensures ParsePoints(JoinPoints(pts)) == Some(pts)
  {
    if |pts| == 1 {
      PointTextHasNoComma(pts[0]);
      PointRoundTrip(pts[0]);
      assert FirstIndex(JoinPoints(pts), ',') == None;
      assert [pts[0]] == pts;
    } else if |pts| > 1 {
      PointTextHasNoComma(pts[0]);
      PointRoundTrip(pts[0]);
      PointsRoundTrip(pts[1..]);
      JoinPointsNonEmpty(pts[1..]);
      ParsePointsSplit(PointText(pts[0]), JoinPoints(pts[1..]));
      assert [pts[0]] + pts[1..] == pts;
    }
  }

  /** Text with a comma first is read as the point before it and the points after `", "`. */
  lemma ParsePointsSplit(head: string, rest: string)
    requires forall i :: 0 <= i < |head| ==> head[i] != ','
    requires rest != ""
    ensures ParsePoints(head + ", " + rest) ==
      match (ParsePoint(head), ParsePoints(rest))
      case (Some(p), Some(ps)) => if ps == [] then None else Some([p] + ps)
      case _ => None
  {
    var s := head + ", " + rest;
    assert s == head + [','] + (" " + rest);
    FirstIndexAfter(head, ',', " " + rest);
    assert s[..|head|] == head;
    assert s[|head| + 2..] == rest;
  }

  lemma JoinPointsNonEmpty(pts: seq<Point>)
    requires |pts| > 0 && WellFormedPoints(pts)
    ensures |JoinPoints(pts)| > 0
  {
  }

  /** Whatever `ParsePoints` accepts is the joined text of the well-formed points it returns. */
  lemma {:induction false} ParsePointsSound(s: string)
    requires ParsePoints(s).Some?
    ensures WellFormedPoints(ParsePoints(s).value) && JoinPoints(ParsePoints(s).value) == s
    decreases |s|
  {
    if s != "" {
      match FirstIndex(s, ',')
      case None =>
        ParsePointSound(s);
      case Some(k) =>
        CommaShape(s, k);
        var head, rest := s[..k], s[k + 2..];
        ParsePointsSplit(head, rest);
        ParsePointSound(head);
        ParsePointsSound(rest);
        var p, ps := ParsePoint(head).value, ParsePoints(rest).value;
        assert ([p] + ps)[0] == p && ([p] + ps)[1..] == ps;
    }
  }

  /** When `ParsePoints` accepts text whose first comma is at `k`, that comma opens a `", "`. */
  lemma CommaShape(s: string, k: nat)
    requires ParsePoints(s).Some? && s != "" && FirstIndex(s, ',') == Some(k)
    ensures k + 2 < |s| && s == s[..k] + ", " + s[k + 2..]
    ensures forall i :: 0 <= i < |s[..k]| ==> s[..k][i] != ','
  {
    assert s[k] == ',';
  }

  /** `to_linestring_wkt` loses nothing: the points come back from the text, in order. */
  lemma LinestringRoundTrip(pts: seq<Point>)
    requires WellFormedPoints(pts)
    ensures ParseLinestringWkt(ToLinestringWkt(pts)) == Some(pts)
  {
    var s := ToLinestringWkt(pts);
    assert s[..11] == "LINESTRING(";
    assert s[11..|s| - 1] == JoinPoints(pts);
    PointsRoundTrip(pts);
  }

  /** Every text the parser accepts is the rendering of the points it returns. */
  lemma LinestringParseRenders(s: string)
    requires ParseLinestringWkt(s).Some?
    ensures WellFormedPoints(ParseLinestringWkt(s).value)
    ensures ToLinestringWkt(ParseLinestringWkt(s).value) == s
  {
    ParsePointsSound(s[11..|s| - 1]);
    assert s == s[..11] + s[11..|s| - 1] + [s[|s| - 1]];
  }

  /** Two lines of well-formed points render alike only if they are the same line. */
  lemma LinestringInjective(a: seq<Point>, b: seq<Point>)
    requires WellFormedPoints(a) && WellFormedPoints(b)
    requires ToLinestringWkt(a) == ToLinestringWkt(b)
    ensures a == b
  {
    LinestringRoundTrip(a);
    LinestringRoundTrip(b);
  }

  /** `to_point_wkt` loses nothing. */
  lemma PointWktRoundTrip(p: Point)
    requires WellFormedPoint(p)
    ensures ParsePointWkt(ToPointWkt(p)) == Some(p)
  {
    var s := ToPointWkt(p);
    assert s[..6] == "POINT(";
    assert s[6..|s| - 1] == PointText(p);
    PointRoundTrip(p);
  }

  lemma PointWktParseRenders(s: string)
    requires ParsePointWkt(s).Some?
    ensures WellFormedPoint(ParsePointWkt(s).value) && ToPointWkt(ParsePointWkt(s).value) == s
  {
    ParsePointSound(s[6..|s| - 1]);
    assert s == s[..6] + s[6..|s| - 1] + [s[|s| - 1]];
  }

  /** Two feed points render as `LINESTRING(x1 y1, x2 y2)` in their order. */
  lemma TwoPointLine()
    ensures ToLinestringWkt([Point("16.6", "49.2"), Point("16.7", "49.3")]) == "LINESTRING(16.6 49.2, 16.7 49.3)"
    ensures ToPointWkt(Point("16.6", "49.2")) == "POINT(16.6 49.2)"
  {
  }
}
