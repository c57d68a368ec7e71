/**
 * ExcellonGenerator: collects drill holes as (diameter, position) entries and
 * writes an Excellon drill program: a header (comments, Format 2 commands,
 * metric units with trailing zeros, a tool table numbering the distinct
 * diameters 1..n in ascending order, the pattern start), one block per tool
 * (select the tool, then one coordinate per hole drilled with it) and a footer.
 *
 * Lengths are integers (nanometres); a line holding a length is kept as a
 * value, its decimal rendering (Length::toMmString) is not modelled.
 */
module Excellon {

  /** A length in nanometres. */
  type Length = int
  type PositiveLength = x: int | x > 0 witness 1

  datatype Point = Point(x: Length, y: Length)

  /** One entry of the drill list: QMultiMap<Length, Point> maps diameters to positions. */
  datatype Hole = Hole(diameter: PositiveLength, pos: Point)

  /** One line of the generated program. */
  datatype Line =
    | Literal(text: string)                      // a fixed command or comment
    | ToolDef(tool: nat, diameter: Length)       // T<tool>C<diameter in mm>
    | ToolSelect(tool: nat)                      // T<tool>
    | Coordinate(pos: Point)                     // X<x in mm>Y<y in mm>

  /** QMultiMap keeps its entries ordered by key. */
  predicate SortedByDiameter(list: seq<Hole>) {
    forall i, j :: 0 <= i < j < |list| ==> list[i].diameter <= list[j].diameter
  }

  predicate StrictlyIncreasing(keys: seq<Length>) {
    forall i, j :: 0 <= i < j < |keys| ==> keys[i] < keys[j]
  }

  /** Every diameter that is drilled. */
  function Diameters(list: seq<Hole>): set<Length> {
    set i | 0 <= i < |list| :: list[i].diameter
  }

  /** QMultiMap::uniqueKeys over the key-ordered entries: each run of one key gives the key once. */
  function UniqueKeys(list: seq<Hole>): (keys: seq<Length>)
    ensures |keys| <= |list|
    ensures list != [] ==> keys != [] && keys[|keys| - 1] == list[|list| - 1].diameter
  {
    if list == [] then []
    else
      var keys := UniqueKeys(list[..|list| - 1]);
      var d := list[|list| - 1].diameter;
      if keys != [] && keys[|keys| - 1] == d then keys else keys + [d]
  }

  /** QMultiMap::values(d), in the order the entries are stored. */
  function Positions(list: seq<Hole>, d: Length): (ps: seq<Point>)
    ensures |ps| <= |list|
  {
    if list == [] then []
    else
      var ps := Positions(list[..|list| - 1], d);
      if list[|list| - 1].diameter == d then ps + [list[|list| - 1].pos] else ps
  }

  /** One coordinate line per position. */
  function Coordinates(ps: seq<Point>): (lines: seq<Line>)
    ensures |lines| == |ps| && forall i :: 0 <= i < |ps| ==> lines[i] == Coordinate(ps[i])
  {
    seq(|ps|, i requires 0 <= i < |ps| => Coordinate(ps[i]))
  }

  /** printToolList: tool i + 1 is defined with the i-th diameter. */
  function ToolTable(keys: seq<Length>): (lines: seq<Line>)
    ensures |lines| == |keys|
  {
    if keys == [] then []
    else ToolTable(keys[..|keys| - 1]) + [ToolDef(|keys|, keys[|keys| - 1])]
  }

  /** printDrills: for tool i + 1, select it and list every position drilled with the i-th diameter. */
  function DrillSection(list: seq<Hole>, keys: seq<Length>): seq<Line> {
    if keys == [] then []
    else
      var n := |keys|;
      DrillSection(list, keys[..n - 1]) + [ToolSelect(n)] + Coordinates(Positions(list, keys[n - 1]))
  }

  const FormatLines: seq<Line> := [Literal("FMAT,2"), Literal("METRIC,TZ")]
  const PatternStart: seq<Line> := [Literal("%"), Literal("G90"), Literal("G05"), Literal("M71")]

  /** printHeader; the application version and the creation date are parameters. */
  function Header(version: string, date: string, keys: seq<Length>): seq<Line> {
    [Literal("M48"), Literal(";DRILL FILE"),
     Literal(";Generated by LibrePCB " + version), Literal(";Creation Date: " + date)]
    + FormatLines + ToolTable(keys) + PatternStart
  }

  /** printFooter: unload the tool, end of program. */
  const Footer: seq<Line> := [ToolSelect(0), Literal("M30")]

  /** What generate() writes for the entries of the drill list. */
  function Program(list: seq<Hole>, version: string, date: string): seq<Line> {
    var keys := UniqueKeys(list);
    Header(version, date, keys) + DrillSection(list, keys) + Footer
  }

  // ---------------------------------------------------------------------------
  // The drill list and the output
  // ---------------------------------------------------------------------------

  class ExcellonGenerator {
    /** mOutput, one element per line */
    var output: seq<Line>
    /** mDrillList: the entries of the multimap in key order */
    var drillList: seq<Hole>

    ghost predicate Valid()
      reads this
    {
      SortedByDiameter(drillList)
    }

    constructor ()
      ensures Valid() && output == [] && drillList == []
    {
      output := [];
      drillList := [];
    }

    /**
     * drill(pos, dia): one more entry in the drill list; the output is not touched.
     * Like QMultiMap::insert, the entry goes before the entries with the same key.
     */
    method Drill(pos: Point, dia: PositiveLength)
      requires Valid()
      modifies this`drillList
      ensures Valid()
      ensures multiset(drillList) == old(multiset(drillList)) + multiset{Hole(dia, pos)}
      ensures |drillList| == old(|drillList|) + 1
    {
      var i := 0;
      while i < |drillList| && drillList[i].diameter < dia
        invariant 0 <= i <= |drillList|
        invariant forall j :: 0 <= j < i ==> drillList[j].diameter < dia
      {
        i := i + 1;
      }
      assert drillList == drillList[..i] + drillList[i..];
      drillList := drillList[..i] + [Hole(dia, pos)] + drillList[i..];
    }

    /** generate(): the previous output is discarded, then header, drills and footer are written. */
    method Generate(version: string, date: string)
      requires Valid()
      modifies this`output
      ensures output == Program(drillList, version, date)
    {
      output := [];
      PrintHeader(version, date);
      PrintDrills();
      PrintFooter();
    }

    /** reset(): empties the output and the drill list. */
    method Reset()
      modifies this
      ensures Valid() && output == [] && drillList == []
    {
      output := [];
      drillList := [];
    }

    /** mDrillList.uniqueKeys() */
    method ComputeUniqueKeys() returns (keys: seq<Length>)
      ensures keys == UniqueKeys(drillList)
    {
      keys := [];
      var j := 0;
      while j < |drillList|
        invariant 0 <= j <= |drillList|
        invariant keys == UniqueKeys(drillList[..j])
      {
        assert drillList[..j + 1][..j] == drillList[..j];
        if keys == [] || keys[|keys| - 1] != drillList[j].diameter {
          keys := keys + [drillList[j].diameter];
        }
        j := j + 1;
      }
      assert drillList[..|drillList|] == drillList;
    }

    /** mDrillList.values(dia) */
    method ComputePositions(dia: Length) returns (ps: seq<Point>)
      ensures ps == Positions(drillList, dia)
    {
      ps := [];
      var j := 0;
      while j < |drillList|
        invariant 0 <= j <= |drillList|
        invariant ps == Positions(drillList[..j], dia)
      {
        assert drillList[..j + 1][..j] == drillList[..j];
        if drillList[j].diameter == dia {
          ps := ps + [drillList[j].pos];
        }
        j := j + 1;
      }
      assert drillList[..|drillList|] == drillList;
    }

    method PrintHeader(version: string, date: string)
      modifies this`output
      ensures output == old(output) + Header(version, date, UniqueKeys(drillList))
    {
      ghost var o := output;
      ghost var comments :=
        [Literal("M48"), Literal(";DRILL FILE"),
         Literal(";Generated by LibrePCB " + version), Literal(";Creation Date: " + date)];
      output := output + [Literal("M48")];
      output := output + [Literal(";DRILL FILE")];
      output := output + [Literal(";Generated by LibrePCB " + version)];
      output := output + [Literal(";Creation Date: " + date)];
      assert output == o + comments;
      output := output + [Literal("FMAT,2")];
      output := output + [Literal("METRIC,TZ")];
      assert output == o + comments + FormatLines;
      ghost var keys := UniqueKeys(drillList);
      PrintToolList();
      ghost var body := output;
      output := output + [Literal("%")];
      output := output + [Literal("G90")];
      output := output + [Literal("G05")];
      output := output + [Literal("M71")];
      assert output == body + PatternStart;
      assert Header(version, date, keys) == comments + FormatLines + ToolTable(keys) + PatternStart;
      AppendAssoc(o, comments, FormatLines);
      AppendAssoc(o, comments + FormatLines, ToolTable(keys));
      AppendAssoc(o, comments + FormatLines + ToolTable(keys), PatternStart);
    }

    method PrintToolList()
      modifies this`output
      ensures output == old(output) + ToolTable(UniqueKeys(drillList))
    {
      var keys := ComputeUniqueKeys();
      var i := 0;
      while i < |keys|
        invariant 0 <= i <= |keys|
        invariant output == old(output) + ToolTable(keys[..i])
      {
        assert keys[..i + 1][..i] == keys[..i];
        AppendAssoc(old(output), ToolTable(keys[..i]), [ToolDef(i + 1, keys[i])]);
        output := output + [ToolDef(i + 1, keys[i])];
        i := i + 1;
      }
      assert keys[..|keys|] == keys;
    }

    method PrintDrills()
      modifies this`output
      ensures output == old(output) + DrillSection(drillList, UniqueKeys(drillList))
    {
      var keys := ComputeUniqueKeys();
      var i := 0;
      while i < |keys|
        invariant 0 <= i <= |keys|
        invariant output == old(output) + DrillSection(drillList, keys[..i])
      {
        ghost var section := DrillSection(drillList, keys[..i]);
        ghost var block := Coordinates(Positions(drillList, keys[i]));
        PrintTool(i + 1, keys[i]);
        DrillSectionStep(drillList, keys, i);
        AppendAssoc(old(output), section + [ToolSelect(i + 1)], block);
        AppendAssoc(old(output), section, [ToolSelect(i + 1)]);
        i := i + 1;
      }
      assert keys[..|keys|] == keys;
    }

    /** One iteration of printDrills: select the tool, then its coordinates. */
    method PrintTool(tool: nat, dia: Length)
      modifies this`output
      ensures output == old(output) + [ToolSelect(tool)] + Coordinates(Positions(drillList, dia))
    {
      output := output + [ToolSelect(tool)];
      var ps := ComputePositions(dia);
      PrintCoordinates(ps);
    }

    /** The foreach over the values of one diameter. */
    method PrintCoordinates(ps: seq<Point>)
      modifies this`output
      ensures output == old(output) + Coordinates(ps)
    {
      var j := 0;
      while j < |ps|
        invariant 0 <= j <= |ps|
        invariant output == old(output) + Coordinates(ps[..j])
      {
        assert Coordinates(ps[..j + 1]) == Coordinates(ps[..j]) + [Coordinate(ps[j])];
        AppendAssoc(old(output), Coordinates(ps[..j]), [Coordinate(ps[j])]);
        output := output + [Coordinate(ps[j])];
        j := j + 1;
      }
      assert ps[..|ps|] == ps;
    }

    method PrintFooter()
      modifies this`output
      ensures output == old(output) + Footer
    {
      output := output + [ToolSelect(0)];
      output := output + [Literal("M30")];
    }
  }

  lemma AppendAssoc<T>(a: seq<T>, b: seq<T>, c: seq<T>)
    ensures a + (b + c) == a + b + c
  {
  }

  // ---------------------------------------------------------------------------
  // What the generated program says about the drill list
  // ---------------------------------------------------------------------------

  /** The unique keys are the drilled diameters, each once, in ascending order. */
  lemma {:induction false} UniqueKeysEnumerateDiameters(list: seq<Hole>)
    requires SortedByDiameter(list)
    ensures StrictlyIncreasing(UniqueKeys(list))
    ensures forall d :: d in UniqueKeys(list) <==> d in Diameters(list)
  {
    if list != [] {
      var init := list[..|list| - 1];
      var last := list[|list| - 1];
      UniqueKeysEnumerateDiameters(init);
      assert Diameters(list) == Diameters(init) + {last.diameter} by {
        assert forall i :: 0 <= i < |init| ==> init[i] == list[i];
      }
      if init != [] {
        assert init[|init| - 1].diameter <= last.diameter;
      }
    }
  }

  function KeySet(keys: seq<Length>): set<Length> {
    set k | k in keys
  }

  /** How many entries of the list have their diameter in `ds`. */
  function CountIn(list: seq<Hole>, ds: set<Length>): nat {
    if list == [] then 0
    else CountIn(list[..|list| - 1], ds) + (if list[|list| - 1].diameter in ds then 1 else 0)
  }

  /** The number of coordinate lines among `lines`. */
  function CoordinateCount(lines: seq<Line>): nat {
    if lines == [] then 0
    else CoordinateCount(lines[..|lines| - 1]) + (if lines[|lines| - 1].Coordinate? then 1 else 0)
  }

  /** The tool numbers selected by the ToolSelect lines among `lines`, in order. */
  function ToolsSelected(lines: seq<Line>): seq<nat> {
    if lines == [] then []
    else
      var last := lines[|lines| - 1];
      ToolsSelected(lines[..|lines| - 1]) + (if last.ToolSelect? then [last.tool] else [])
  }

  lemma {:induction false} CoordinateCountAppend(a: seq<Line>, b: seq<Line>)
    ensures CoordinateCount(a + b) == CoordinateCount(a) + CoordinateCount(b)
  {
    if b != [] {
      assert (a + b)[..|a + b| - 1] == a + b[..|b| - 1];
      assert (a + b)[|a + b| - 1] == b[|b| - 1];
      CoordinateCountAppend(a, b[..|b| - 1]);
    } else {
      assert a + b == a;
    }
  }

  lemma {:induction false} ToolsSelectedAppend(a: seq<Line>, b: seq<Line>)
    ensures ToolsSelected(a + b) == ToolsSelected(a) + ToolsSelected(b)
  {
    if b != [] {
      assert (a + b)[..|a + b| - 1] == a + b[..|b| - 1];
      assert (a + b)[|a + b| - 1] == b[|b| - 1];
      ToolsSelectedAppend(a, b[..|b| - 1]);
    } else {
      assert a + b == a;
    }
  }

  lemma {:induction false} CoordinatesShape(ps: seq<Point>)
    ensures CoordinateCount(Coordinates(ps)) == |ps|
    ensures ToolsSelected(Coordinates(ps)) == []
  {
    if ps != [] {
      var init := ps[..|ps| - 1];
      assert Coordinates(ps)[..|ps| - 1] == Coordinates(init);
      CoordinatesShape(init);
    }
  }

  /** Counting the entries of one more diameter adds the length of its values list. */
  lemma {:induction false} CountInAddKey(list: seq<Hole>, ds: set<Length>, d: Length)
    requires d !in ds
    ensures CountIn(list, ds + {d}) == CountIn(list, ds) + |Positions(list, d)|
  {
    if list != [] {
      CountInAddKey(list[..|list| - 1], ds, d);
    }
  }

  lemma {:induction false} CountInNone(list: seq<Hole>)
    ensures CountIn(list, {}) == 0
  {
    if list != [] {
      CountInNone(list[..|list| - 1]);
    }
  }

  lemma {:induction false} CountInAll(list: seq<Hole>, ds: set<Length>)
    requires Diameters(list) <= ds
    ensures CountIn(list, ds) == |list|
  {
    if list != [] {
      var init := list[..|list| - 1];
      assert Diameters(init) <= Diameters(list) by {
        assert forall i :: 0 <= i < |init| ==> init[i] == list[i];
      }
      assert list[|list| - 1].diameter in Diameters(list);
      CountInAll(init, ds);
    }
  }

  /** The drill section holds one coordinate per entry whose diameter is one of the keys. */
  lemma {:induction false} DrillSectionCoordinateCount(list: seq<Hole>, keys: seq<Length>)
    requires StrictlyIncreasing(keys)
    ensures CoordinateCount(DrillSection(list, keys)) == CountIn(list, KeySet(keys))
  {
    if keys != [] {
      var n := |keys|;
      var init := keys[..n - 1];
      DrillSectionCoordinateCount(list, init);
      var ps := Positions(list, keys[n - 1]);
      CoordinateCountAppend(DrillSection(list, init) + [ToolSelect(n)], Coordinates(ps));
      CoordinateCountAppend(DrillSection(list, init), [ToolSelect(n)]);
      assert CoordinateCount([ToolSelect(n)]) == 0;
      CoordinatesShape(ps);
      assert KeySet(keys) == KeySet(init) + {keys[n - 1]};
      assert keys[n - 1] !in KeySet(init);
      CountInAddKey(list, KeySet(init), keys[n - 1]);
    } else {
      assert KeySet(keys) == {};
      CountInNone(list);
    }
  }

  /** One more tool block at the end of the drill section. */
  lemma DrillSectionStep(list: seq<Hole>, keys: seq<Length>, i: nat)
    requires i < |keys|
    ensures DrillSection(list, keys[..i + 1])
         == DrillSection(list, keys[..i]) + [ToolSelect(i + 1)] + Coordinates(Positions(list, keys[i]))
  {
    assert keys[..i + 1][..i] == keys[..i];
  }

  /** Line i of the tool table defines tool i + 1 with the i-th unique diameter. */
  lemma {:induction false} ToolTableNumbersDiameters(keys: seq<Length>)
    ensures forall i :: 0 <= i < |keys| ==> ToolTable(keys)[i] == ToolDef(i + 1, keys[i])
  {
    if keys != [] {
      var init := keys[..|keys| - 1];
      ToolTableNumbersDiameters(init);
      forall i | 0 <= i < |keys|
        ensures ToolTable(keys)[i] == ToolDef(i + 1, keys[i])
      {
        if i < |init| {
          assert ToolTable(keys)[i] == ToolTable(init)[i];
        }
      }
    }
  }

  /** The drill section selects tools 1, 2, ..., n, each once and in that order. */
  lemma {:induction false} DrillSectionSelectsEachTool(list: seq<Hole>, keys: seq<Length>)
    ensures ToolsSelected(DrillSection(list, keys)) == seq(|keys|, i => i + 1)
  {
    if keys != [] {
      var n := |keys|;
      var init := keys[..n - 1];
      DrillSectionSelectsEachTool(list, init);
      var ps := Positions(list, keys[n - 1]);
      assert DrillSection(list, keys) == DrillSection(list, init) + [ToolSelect(n)] + Coordinates(ps);
      ToolsSelectedAppend(DrillSection(list, init) + [ToolSelect(n)], Coordinates(ps));
      ToolsSelectedAppend(DrillSection(list, init), [ToolSelect(n)]);
      assert ToolsSelected([ToolSelect(n)]) == [n];
      CoordinatesShape(ps);
      assert seq(n - 1, i => i + 1) + [n] == seq(n, i => i + 1);
    }
  }

  /**
   * The values list of a diameter holds every position exactly as often as it
   * was drilled with that diameter.
   */
  lemma {:induction false} PositionsCountDrills(list: seq<Hole>, d: PositiveLength, p: Point)
    ensures multiset(Positions(list, d))[p] == multiset(list)[Hole(d, p)]
  {
    if list != [] {
      var init := list[..|list| - 1];
      assert list == init + [list[|list| - 1]];
      PositionsCountDrills(init, d, p);
    }
  }

  /** The generated program, line by line. */
  lemma ProgramLayout(list: seq<Hole>, version: string, date: string)
    ensures var out, n := Program(list, version, date), |UniqueKeys(list)|;
      && |out| >= 12 + n
      && out[..6] == [Literal("M48"), Literal(";DRILL FILE"),
                      Literal(";Generated by LibrePCB " + version), Literal(";Creation Date: " + date),
                      Literal("FMAT,2"), Literal("METRIC,TZ")]
      && out[6..6 + n] == ToolTable(UniqueKeys(list))
      && out[6 + n..10 + n] == [Literal("%"), Literal("G90"), Literal("G05"), Literal("M71")]
      && out[|out| - 2..] == [ToolSelect(0), Literal("M30")]
  {
    var keys := UniqueKeys(list);
    var n := |keys|;
    var header := Header(version, date, keys);
    var body := header + DrillSection(list, keys);
    var out := Program(list, version, date);
    assert out == body + Footer;
    HeaderLayout(version, date, keys);
    assert out[..|body|] == body;
    assert body[..|header|] == header;
    assert out[..6] == header[..6];
    assert out[6..6 + n] == header[6..6 + n];
    assert out[6 + n..10 + n] == header[6 + n..];
    assert out[|out| - 2..] == Footer;
  }

  /** The header: six fixed lines, the tool table, then the pattern start. */
  lemma HeaderLayout(version: string, date: string, keys: seq<Length>)
    ensures var header, n := Header(version, date, keys), |keys|;
      && |header| == 10 + n
      && header[..6] == [Literal("M48"), Literal(";DRILL FILE"),
                         Literal(";Generated by LibrePCB " + version), Literal(";Creation Date: " + date),
                         Literal("FMAT,2"), Literal("METRIC,TZ")]
      && header[6..6 + n] == ToolTable(keys)
      && header[6 + n..] == PatternStart
  {
    var fixed :=
      [Literal("M48"), Literal(";DRILL FILE"),
       Literal(";Generated by LibrePCB " + version), Literal(";Creation Date: " + date)] + FormatLines;
    var header := Header(version, date, keys);
    assert header == fixed + ToolTable(keys) + PatternStart;
    assert header[..6] == fixed;
    assert header[6..6 + |keys|] == ToolTable(keys);
    assert header[6 + |keys|..] == PatternStart;
  }

  /** The program holds one coordinate line per drill entry. */
  lemma ProgramDrillsEveryEntry(list: seq<Hole>, version: string, date: string)
    requires SortedByDiameter(list)
    ensures CoordinateCount(Program(list, version, date)) == |list|
  {
    var keys := UniqueKeys(list);
    var header := Header(version, date, keys);
    var drills := DrillSection(list, keys);
    UniqueKeysEnumerateDiameters(list);
    DrillSectionCoordinateCount(list, keys);
    assert Diameters(list) <= KeySet(keys);
    CountInAll(list, KeySet(keys));
    assert Program(list, version, date) == header + drills + Footer;
    CoordinateCountAppend(header + drills, Footer);
    CoordinateCountAppend(header, drills);
    HeaderShape(version, date, keys);
    assert CoordinateCount(Footer) == 0;
  }

  /** The program selects tools 1, 2, ..., n in that order and finally unloads with tool 0. */
  lemma ProgramSelectsEachTool(list: seq<Hole>, version: string, date: string)
    ensures ToolsSelected(Program(list, version, date)) == seq(|UniqueKeys(list)|, i => i + 1) + [0]
  {
    var keys := UniqueKeys(list);
    var header := Header(version, date, keys);
    var drills := DrillSection(list, keys);
    assert Program(list, version, date) == header + drills + Footer;
    HeaderShape(version, date, keys);
    DrillSectionSelectsEachTool(list, keys);
    ToolsSelectedAppend(header, drills);
    assert ToolsSelected(header + drills) == seq(|keys|, i => i + 1);
    ToolsSelectedAppend(header + drills, Footer);
    assert ToolsSelected(Footer) == [0];
  }

  /** Entry h is drilled with the i-th unique diameter, i.e. under tool i + 1. */
  predicate ListedUnderTool(list: seq<Hole>, keys: seq<Length>, h: Hole) {
    exists i :: 0 <= i < |keys| && keys[i] == h.diameter && h.pos in Positions(list, keys[i])
  }

  /** Every drill entry is listed under the tool whose table line carries its diameter. */
  lemma EveryHoleHasItsTool(list: seq<Hole>)
    requires SortedByDiameter(list)
    ensures forall h :: h in list ==> ListedUnderTool(list, UniqueKeys(list), h)
  {
    var keys := UniqueKeys(list);
    UniqueKeysEnumerateDiameters(list);
    forall h | h in list
      ensures ListedUnderTool(list, keys, h)
    {
      var j :| 0 <= j < |list| && list[j] == h;
      assert h.diameter in Diameters(list);
      assert h.diameter in keys;
      var i :| 0 <= i < |keys| && keys[i] == h.diameter;
      PositionsCountDrills(list, h.diameter, h.pos);
      assert Hole(h.diameter, h.pos) == h;
      assert multiset(list)[h] > 0;
      assert h.pos in multiset(Positions(list, keys[i]));
    }
  }

  /** The header holds neither coordinates nor tool selections. */
  lemma {:induction false} HeaderShape(version: string, date: string, keys: seq<Length>)
    ensures CoordinateCount(Header(version, date, keys)) == 0
    ensures ToolsSelected(Header(version, date, keys)) == []
  {
    ToolTableNumbersDiameters(keys);
    NoToolSelectOrCoordinate(Header(version, date, keys));
  }

  lemma {:induction false} NoToolSelectOrCoordinate(lines: seq<Line>)
    requires forall i :: 0 <= i < |lines| ==> lines[i].Literal? || lines[i].ToolDef?
    ensures CoordinateCount(lines) == 0 && ToolsSelected(lines) == []
  {
    if lines != [] {
      NoToolSelectOrCoordinate(lines[..|lines| - 1]);
    }
  }
}
