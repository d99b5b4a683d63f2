/** Assembling a job from polylines: layers in ascending order, one pen each, absolute
    pen-up/pen-down strokes, and a final park with the pen stored. */
module Writer {
  import opened Text
  import opened Numbers
  import opened Device
  import opened Emulator
  import opened Order

  const PEN_COUNT: int := 6

  datatype Point = Point(x: real, y: real)

  /** A point in whole plotter units. */
  datatype Spot = Spot(x: int, y: int)

  datatype WriterError = NoGeometry | BadPen(pen: int, layer: int) | NothingPlottable

  datatype Built<+T> = Built(value: T) | Failed(error: WriterError)

  // ---- points -------------------------------------------------------------------------

  /** The rounding error is at most half a unit, a half goes to the even neighbour, and bounds in
      whole units are respected. */
  lemma RoundingIsNear(v: real, lo: int, hi: int)
    ensures var r := RoundHalfEven(v) as real; -0.5 <= r - v <= 0.5
    ensures var r := RoundHalfEven(v) as real; r - v == 0.5 || r - v == -0.5 ==> RoundHalfEven(v) % 2 == 0
    ensures lo as real <= v <= hi as real ==> lo <= RoundHalfEven(v) <= hi
  {
  }

  function Rounded(line: seq<Point>): (r: seq<Spot>)
    ensures |r| == |line|
  {
    if line == [] then [] else [Spot(RoundHalfEven(line[0].x), RoundHalfEven(line[0].y))] + Rounded(line[1..])
  }

  function SpotPair(p: Spot): Pair { Pair(IntText(p.x), IntText(p.y)) }

  function SpotPairs(spots: seq<Spot>): (r: seq<Pair>)
    ensures |r| == |spots|
  {
    if spots == [] then [] else [SpotPair(spots[0])] + SpotPairs(spots[1..])
  }

  // ---- the program --------------------------------------------------------------------

  function PenFor(pens: map<int, int>, layer: int): int {
    if layer in pens then pens[layer] else 1 + (layer - 1) % PEN_COUNT
  }

  /** One polyline: up to its first point, down through the others.  Shorter ones are skipped. */
  function LineProgram(line: seq<Spot>): seq<Instr> {
    if |line| < 2 then [] else [Mover("PU", SpotPairs(line[..1])), Mover("PD", SpotPairs(line[1..]))]
  }

  function LinesProgram(lines: seq<seq<Point>>): seq<Instr> {
    if lines == [] then [] else LineProgram(Rounded(lines[0])) + LinesProgram(lines[1..])
  }

  function LayerProgram(pen: int, lines: seq<seq<Point>>): seq<Instr> {
    var body := LinesProgram(lines);
    if body == [] then [] else [Bare("SP" + IntText(pen))] + body
  }

  function LayersProgram(ids: seq<int>, layers: map<int, seq<seq<Point>>>, pens: map<int, int>): Built<seq<Instr>>
    requires forall id :: id in ids ==> id in layers
  {
    if ids == [] then Built([])
    else
      var pen := PenFor(pens, ids[0]);
      if !(1 <= pen <= PEN_COUNT) then Failed(BadPen(pen, ids[0]))
      else
        match LayersProgram(ids[1..], layers, pens)
        case Failed(e) => Failed(e)
        case Built(rest) => Built(LayerProgram(pen, layers[ids[0]]) + rest)
  }

  function Header(velocity: Option<string>): seq<Instr> {
    [Bare("IN"), Bare("DF")] + (if velocity.Some? then [Bare("VS" + velocity.value)] else [])
  }

  function Trailer(park: Spot): seq<Instr> { [Mover("PU", [SpotPair(park)]), Bare("SP0")] }

  function JobProgram(layers: map<int, seq<seq<Point>>>, pens: map<int, int>, park: Spot, velocity: Option<string>)
    : Built<seq<Instr>>
  {
    if layers == map[] then Failed(NoGeometry)
    else
      match LayersProgram(Ascending(layers.Keys), layers, pens)
      case Failed(e) => Failed(e)
      case Built(body) =>
        if body == [] then Failed(NothingPlottable) else Built(Header(velocity) + body + Trailer(park))
  }

  // ---- the assembly loop --------------------------------------------------------------

  lemma PlusAssociates<T>(a: seq<T>, b: seq<T>, c: seq<T>)
    ensures a + (b + c) == (a + b) + c
  {
  }

  lemma ScriptOne(i: Instr)
    ensures Script([i]) == TextOf(i) + ";"
  {
    assert Script([i]) == TextOf(i) + ";" + Script([i][1..]);
  }

  lemma ScriptTwo(i: Instr, j: Instr)
    ensures Script([i, j]) == TextOf(i) + ";" + TextOf(j) + ";"
  {
    assert [i, j] == [i] + [j];
    ScriptAppend([i], [j]);
    ScriptOne(i);
    ScriptOne(j);
  }

  /** The text of one point list. */
  function PointTexts(spots: seq<Spot>): (r: seq<string>)
    ensures |r| == |spots|
  {
    if spots == [] then [] else [IntText(spots[0].x) + "," + IntText(spots[0].y)] + PointTexts(spots[1..])
  }

  lemma {:induction false} PointTextsJoin(spots: seq<Spot>)
    ensures Join(PointTexts(spots), ',') == PairsText(SpotPairs(spots))
  {
    if |spots| == 1 {
      assert PointTexts(spots[1..]) == [] && SpotPairs(spots[1..]) == [];
    } else if |spots| > 1 {
      PointTextsJoin(spots[1..]);
      assert PointTexts(spots)[1..] == PointTexts(spots[1..]) && SpotPairs(spots)[1..] == SpotPairs(spots[1..]);
    }
  }

  /** The text the loop appends for one polyline. */
  method LineText(line: seq<Point>) returns (text: string)
    ensures text == Script(LineProgram(Rounded(line)))
  {
    var spots := Rounded(line);
    if |spots| < 2 {
      return "";
    }
    PointTextsJoin(spots[..1]);
    PointTextsJoin(spots[1..]);
    ScriptTwo(Mover("PU", SpotPairs(spots[..1])), Mover("PD", SpotPairs(spots[1..])));
    text := "PU" + Join(PointTexts(spots[..1]), ',') + ";PD" + Join(PointTexts(spots[1..]), ',') + ";";
  }

  lemma LinesStep(done: seq<Instr>, lines: seq<seq<Point>>, k: nat)
    requires k < |lines| && LinesProgram(lines) == done + LinesProgram(lines[k..])
    ensures var more := LineProgram(Rounded(lines[k]));
      && LinesProgram(lines) == (done + more) + LinesProgram(lines[k + 1..])
      && Script(done + more) == Script(done) + Script(more)
      && (if |lines[k]| < 2 then done + more == done else done + more != [])
  {
    var more := LineProgram(Rounded(lines[k]));
    assert lines[k..][0] == lines[k] && lines[k..][1..] == lines[k + 1..];
    ScriptAppend(done, more);
    PlusAssociates(done, more, LinesProgram(lines[k + 1..]));
  }

  /** One layer's chunk; `drawn` says whether anything but the pen selection is in it. */
  method LayerText(pen: int, lines: seq<seq<Point>>) returns (text: string, drawn: bool)
    ensures drawn <==> LayerProgram(pen, lines) != []
    ensures drawn ==> text == Script(LayerProgram(pen, lines))
  {
    var body := "";
    ghost var done: seq<Instr> := [];
    drawn := false;
    var k := 0;
    while k < |lines|
      invariant 0 <= k <= |lines|
      invariant LinesProgram(lines) == done + LinesProgram(lines[k..])
      invariant body == Script(done) && (drawn <==> done != [])
    {
      var line := LineText(lines[k]);
      LinesStep(done, lines, k);
      if |lines[k]| >= 2 {
        body, drawn := body + line, true;
      }
      done := done + LineProgram(Rounded(lines[k]));
      k := k + 1;
    }
    assert lines[k..] == [] && done + [] == done;
    LayerScript(pen, lines);
    text := "SP" + IntText(pen) + ";" + body;
  }

  lemma LayerScript(pen: int, lines: seq<seq<Point>>)
    ensures LinesProgram(lines) != [] ==>
      Script(LayerProgram(pen, lines)) == "SP" + IntText(pen) + ";" + Script(LinesProgram(lines))
  {
    var select := Bare("SP" + IntText(pen));
    ScriptOne(select);
    ScriptAppend([select], LinesProgram(lines));
  }

  function HeaderText(velocity: Option<string>): string {
    "IN;" + "DF;" + (if velocity.Some? then "VS" + velocity.value + ";" else "")
  }

  lemma HeaderScript(velocity: Option<string>)
    ensures Script(Header(velocity)) == HeaderText(velocity)
  {
    ScriptTwo(Bare("IN"), Bare("DF"));
    if velocity.Some? {
      ScriptAppend([Bare("IN"), Bare("DF")], [Bare("VS" + velocity.value)]);
      ScriptOne(Bare("VS" + velocity.value));
    } else {
      assert [Bare("IN"), Bare("DF")] + [] == [Bare("IN"), Bare("DF")];
    }
  }

  function TrailerText(park: Spot): string {
    "PU" + (IntText(park.x) + "," + IntText(park.y)) + ";" + "SP0" + ";"
  }

  lemma TrailerScript(park: Spot)
    ensures Script(Trailer(park)) == TrailerText(park)
  {
    ScriptTwo(Mover("PU", [SpotPair(park)]), Bare("SP0"));
  }

  /** The outcome of the remaining layers, behind what has been assembled already. */
  function After(done: seq<Instr>, rest: Built<seq<Instr>>): Built<seq<Instr>> {
    match rest
    case Failed(e) => Failed(e)
    case Built(more) => Built(done + more)
  }

  lemma AfterNothing(all: Built<seq<Instr>>)
    ensures After([], all) == all
  {
    if all.Built? {
      assert [] + all.value == all.value;
    }
  }

  lemma LayersStep(done: seq<Instr>, ids: seq<int>, k: nat, layers: map<int, seq<seq<Point>>>, pens: map<int, int>)
    requires k < |ids| && forall id :: id in ids ==> id in layers
    ensures var pen := PenFor(pens, ids[k]);
      !(1 <= pen <= PEN_COUNT) ==> LayersProgram(ids[k..], layers, pens) == Failed(BadPen(pen, ids[k]))
    ensures var pen := PenFor(pens, ids[k]);
      1 <= pen <= PEN_COUNT ==>
        (var more := LayerProgram(pen, layers[ids[k]]);
         && After(done, LayersProgram(ids[k..], layers, pens)) ==
            After(done + more, LayersProgram(ids[k + 1..], layers, pens))
         && Script(done + more) == Script(done) + Script(more)
         && (more == [] ==> done + more == done))
  {
    assert ids[k..][0] == ids[k] && ids[k..][1..] == ids[k + 1..];
    var more := LayerProgram(PenFor(pens, ids[k]), layers[ids[k]]);
    ScriptAppend(done, more);
    var rest := LayersProgram(ids[k + 1..], layers, pens);
    AfterBoth(done, more, rest);
    assert 1 <= PenFor(pens, ids[k]) <= PEN_COUNT ==> LayersProgram(ids[k..], layers, pens) == After(more, rest);
  }

  lemma AfterBoth(done: seq<Instr>, more: seq<Instr>, rest: Built<seq<Instr>>)
    ensures After(done, After(more, rest)) == After(done + more, rest)
    ensures more == [] ==> done + more == done
  {
    if rest.Built? {
      PlusAssociates(done, more, rest.value);
    }
  }

  lemma LayersEnd(done: seq<Instr>, ids: seq<int>, layers: map<int, seq<seq<Point>>>, pens: map<int, int>)
    requires forall id :: id in ids ==> id in layers
    ensures After(done, LayersProgram(ids[|ids|..], layers, pens)) == Built(done)
  {
    assert ids[|ids|..] == [] && done + [] == done;
  }

  /** The layer loop: one text for each layer that has something to plot. */
  method LayerParts(ids: seq<int>, layers: map<int, seq<seq<Point>>>, pens: map<int, int>)
    returns (r: Built<seq<string>>)
    requires forall id :: id in ids ==> id in layers
    ensures match LayersProgram(ids, layers, pens)
      case Failed(e) => r == Failed(e)
      case Built(body) => r.Built? && Concat(r.value) == Script(body) && (r.value == [] <==> body == [])
  {
    var parts: seq<string> := [];
    ghost var done: seq<Instr> := [];
    ghost var all := LayersProgram(ids, layers, pens);
    assert ids[0..] == ids;
    AfterNothing(all);
    var k := 0;
    while k < |ids|
      invariant 0 <= k <= |ids|
      invariant Concat(parts) == Script(done) && (parts == [] <==> done == [])
      invariant all == After(done, LayersProgram(ids[k..], layers, pens))
    {
      var pen := PenFor(pens, ids[k]);
      LayersStep(done, ids, k, layers, pens);
      if !(1 <= pen <= PEN_COUNT) {
        return Failed(BadPen(pen, ids[k]));
      }
      var text, drawn := LayerText(pen, layers[ids[k]]);
      if drawn {
        ConcatSnoc(parts, text);
        parts := parts + [text];
      }
      done := done + LayerProgram(pen, layers[ids[k]]);
      k := k + 1;
    }
    LayersEnd(done, ids, layers, pens);
    r := Built(parts);
  }

  /** The whole job text and the error cases. */
  method BuildHpgl(layers: map<int, seq<seq<Point>>>, pens: map<int, int>, park: Spot, velocity: Option<string>)
    returns (r: Built<string>)
    ensures match JobProgram(layers, pens, park, velocity)
      case Failed(e) => r == Failed(e)
      case Built(program) => r == Built(Script(program))
  {
    if layers == map[] {
      return Failed(NoGeometry);
    }
    var ids := Ascending(layers.Keys);
    var parts := LayerParts(ids, layers, pens);
    match parts {
      case Failed(e) => r := Failed(e);
      case Built(texts) =>
        if texts == [] {
          return Failed(NothingPlottable);
        }
        JobScript(velocity, LayersProgram(ids, layers, pens).value, park);
        r := Built(HeaderText(velocity) + Concat(texts) + TrailerText(park));
    }
  }

  lemma JobScript(velocity: Option<string>, body: seq<Instr>, park: Spot)
    ensures Script(Header(velocity) + body + Trailer(park)) == HeaderText(velocity) + Script(body) + TrailerText(park)
  {
    HeaderScript(velocity);
    TrailerScript(park);
    ScriptAppend(Header(velocity), body);
    ScriptAppend(Header(velocity) + body, Trailer(park));
  }
}
