/** What an assembled job draws. */
module WriterMeaning {
  // Interpreting the writer's text gives back exactly the rounded polylines of at least two
  // points, layer by layer in ascending order with the mapped pens, and leaves the pen up and
  // stored.

  import opened Text
  import opened Numbers
  import opened Device
  import opened Emulator
  import opened Hpgl
  import Order
  import opened Writer
  import Agreement

  // ---- reading a plot back ------------------------------------------------------------

  /** A drawn polyline: its pen and its points in order. */
  datatype Stroke = Stroke(pen: real, points: seq<(real, real)>)

  function Flush(pen: real, points: seq<(real, real)>): seq<Stroke> {
    if |points| >= 2 then [Stroke(pen, points)] else []
  }

  /** The polylines of a plot: each starts where the pen was moved to while up and continues
      through the points visited while down. */
  function Strokes(marks: seq<Mark>, pen: real, current: seq<(real, real)>): seq<Stroke>
    decreases |marks|
  {
    if marks == [] then Flush(pen, current)
    else
      var m := marks[0];
      if m.down then Strokes(marks[1..], pen, current + [(m.x, m.y)])
      else Flush(pen, current) + Strokes(marks[1..], m.pen, [(m.x, m.y)])
  }

  // ---- what is expected ---------------------------------------------------------------

  function Reals(line: seq<Spot>): (r: seq<(real, real)>)
    ensures |r| == |line|
  {
    if line == [] then [] else [(line[0].x as real, line[0].y as real)] + Reals(line[1..])
  }

  /** The polylines of a layer that have at least two points, rounded. */
  function LineStrokes(pen: int, lines: seq<seq<Point>>): seq<Stroke> {
    if lines == [] then []
    else Flush(pen as real, Reals(Rounded(lines[0]))) + LineStrokes(pen, lines[1..])
  }

  function LayerStrokes(ids: seq<int>, layers: map<int, seq<seq<Point>>>, pens: map<int, int>): seq<Stroke>
    requires forall id :: id in ids ==> id in layers
  {
    if ids == [] then []
    else LineStrokes(PenFor(pens, ids[0]), layers[ids[0]]) + LayerStrokes(ids[1..], layers, pens)
  }

  // ---- drawing a program --------------------------------------------------------------

  /** Drawing instruction by instruction. */
  function DrawProgram(t: Turtle, instrs: seq<Instr>): Drawing { DrawAll(t, Agreement.Texts(instrs)) }

  lemma {:induction false} TextsAppend(a: seq<Instr>, b: seq<Instr>)
    ensures Agreement.Texts(a + b) == Agreement.Texts(a) + Agreement.Texts(b)
  {
    if a == [] {
      assert a + b == b;
    } else {
      assert (a + b)[1..] == a[1..] + b;
      TextsAppend(a[1..], b);
    }
  }

  lemma DrawProgramAppend(t: Turtle, a: seq<Instr>, b: seq<Instr>)
    ensures var first := DrawProgram(t, a);
      var second := DrawProgram(first.end, b);
      DrawProgram(t, a + b) == Drawing(first.marks + second.marks, second.end)
  {
    TextsAppend(a, b);
    DrawAllAppend(t, Agreement.Texts(a), Agreement.Texts(b));
  }

  lemma DrawOneInstr(t: Turtle, i: Instr)
    ensures DrawProgram(t, [i]) == Draw(t, TextOf(i))
  {
    assert Agreement.Texts([i]) == [TextOf(i)] + Agreement.Texts([i][1..]);
    assert Agreement.Texts([i])[1..] == [];
    var one := Draw(t, TextOf(i));
    assert DrawAll(one.end, []) == Drawing([], one.end);
    assert one.marks + [] == one.marks;
  }

  lemma SpotValues(p: Spot)
    ensures PlainPair(SpotPair(p))
    ensures Value(SpotPair(p).x) == p.x as real && Value(SpotPair(p).y) == p.y as real
  {
    IntRoundTrip(p.x);
    IntRoundTrip(p.y);
  }

  lemma {:induction false} SpotPairsPlain(spots: seq<Spot>)
    ensures PlainPairs(SpotPairs(spots))
  {
    if spots != [] {
      SpotValues(spots[0]);
      SpotPairsPlain(spots[1..]);
    }
  }

  /** The marks left by visiting whole-unit points. */
  function SpotMarks(t: Turtle, spots: seq<Spot>): seq<Mark> {
    if spots == [] then []
    else [Mark(spots[0].x as real, spots[0].y as real, t.pen, t.down)] + SpotMarks(t, spots[1..])
  }

  function AtSpot(t: Turtle, spots: seq<Spot>): Turtle {
    if spots == [] then t
    else var last := spots[|spots| - 1]; t.(x := last.x as real, y := last.y as real)
  }

  lemma {:induction false} VisitSpots(t: Turtle, spots: seq<Spot>)
    requires t.absolute
    ensures PlainPairs(SpotPairs(spots))
    ensures Visit(t, Values(SpotPairs(spots))) == Drawing(SpotMarks(t, spots), AtSpot(t, spots))
    decreases |spots|
  {
    hide Value, Plain;
    SpotPairsPlain(spots);
    if spots != [] {
      var p := spots[0];
      SpotValues(p);
      var t' := StepTo(t, p.x as real, p.y as real);
      VisitSpots(t', spots[1..]);
      assert SpotPairs(spots)[1..] == SpotPairs(spots[1..]);
      var nums := Values(SpotPairs(spots));
      assert nums == [p.x as real, p.y as real] + Values(SpotPairs(spots[1..]));
      assert nums[2..] == Values(SpotPairs(spots[1..]));
      SpotMarksFrom(t, t', spots[1..]);
    }
  }

  lemma {:induction false} SpotMarksFrom(t: Turtle, u: Turtle, spots: seq<Spot>)
    requires t.pen == u.pen && t.down == u.down
    ensures SpotMarks(t, spots) == SpotMarks(u, spots)
  {
    if spots != [] {
      SpotMarksFrom(t, u, spots[1..]);
    }
  }

  lemma DrawSpots(t: Turtle, head: string, spots: seq<Spot>)
    requires head == "PU" || head == "PD"
    requires t.absolute
    ensures var u := Prepared(t, head);
      DrawProgram(t, [Mover(head, SpotPairs(spots))]) == Drawing(SpotMarks(u, spots), AtSpot(u, spots))
  {
    var u := Prepared(t, head);
    VisitSpots(u, spots);
    DrawMover(t, head, SpotPairs(spots));
    DrawOneInstr(t, Mover(head, SpotPairs(spots)));
  }

  // ---- reading strokes back -----------------------------------------------------------

  lemma {:induction false} StrokesDown(t: Turtle, spots: seq<Spot>, rest: seq<Mark>, pen: real,
      current: seq<(real, real)>)
    requires t.down
    ensures Strokes(SpotMarks(t, spots) + rest, pen, current) == Strokes(rest, pen, current + Reals(spots))
    decreases |spots|
  {
    if spots == [] {
      assert SpotMarks(t, spots) + rest == rest && current + [] == current;
    } else {
      var m := Mark(spots[0].x as real, spots[0].y as real, t.pen, true);
      assert (SpotMarks(t, spots) + rest)[1..] == SpotMarks(t, spots[1..]) + rest;
      StrokesDown(t, spots[1..], rest, pen, current + [(m.x, m.y)]);
      assert (current + [(m.x, m.y)]) + Reals(spots[1..]) == current + Reals(spots);
    }
  }

  ghost predicate UpFirst(marks: seq<Mark>) { marks != [] ==> !marks[0].down }

  /** A polyline is complete when the pen goes up. */
  lemma StrokesCut(rest: seq<Mark>, pen: real, current: seq<(real, real)>)
    requires UpFirst(rest)
    ensures Strokes(rest, pen, current) == Flush(pen, current) + Strokes(rest, 0.0, [])
  {
    assert Flush(pen, current) + [] == Flush(pen, current);
    if rest != [] {
      var tail := Strokes(rest[1..], rest[0].pen, [(rest[0].x, rest[0].y)]);
      assert [] + tail == tail;
    }
  }

  /** The pen during the two instructions of a polyline. */
  function UpState(t: Turtle): Turtle { Prepared(t, "PU") }
  function DownState(t: Turtle, first: seq<Spot>): Turtle { Prepared(AtSpot(UpState(t), first), "PD") }

  /** What a polyline leaves on the paper. */
  function LineResult(t: Turtle, spots: seq<Spot>): Drawing {
    if |spots| < 2 then Drawing([], t)
    else
      var first, others := spots[..1], spots[1..];
      Drawing(SpotMarks(UpState(t), first) + SpotMarks(DownState(t, first), others),
        AtSpot(DownState(t, first), others))
  }

  lemma LineDrawing(t: Turtle, spots: seq<Spot>)
    requires t.absolute
    ensures DrawProgram(t, LineProgram(spots)) == LineResult(t, spots)
  {
    if |spots| >= 2 {
      var first, others := spots[..1], spots[1..];
      DrawSpots(t, "PU", first);
      DrawSpots(AtSpot(UpState(t), first), "PD", others);
      DrawProgramAppend(t, [Mover("PU", SpotPairs(first))], [Mover("PD", SpotPairs(others))]);
      assert [Mover("PU", SpotPairs(first))] + [Mover("PD", SpotPairs(others))] == LineProgram(spots);
    }
  }

  lemma LineRead(t: Turtle, spots: seq<Spot>, rest: seq<Mark>)
    requires t.absolute && UpFirst(rest)
    ensures var d := LineResult(t, spots);
      && Strokes(d.marks + rest, 0.0, []) == Flush(t.pen, Reals(spots)) + Strokes(rest, 0.0, [])
      && UpFirst(d.marks + rest) && d.end.absolute && d.end.pen == t.pen
  {
    if |spots| < 2 {
      assert [] + rest == rest;
      assert [] + Strokes(rest, 0.0, []) == Strokes(rest, 0.0, []);
    } else {
      LineStrokesRead(UpState(t), DownState(t, spots[..1]), spots[..1], spots[1..], rest);
      assert Reals(spots) == Reals(spots[..1]) + Reals(spots[1..]);
    }
  }

  lemma LineStrokesRead(t1: Turtle, t2: Turtle, first: seq<Spot>, others: seq<Spot>, rest: seq<Mark>)
    requires !t1.down && t2.down && |first| == 1 && others != [] && UpFirst(rest)
    ensures Strokes(SpotMarks(t1, first) + SpotMarks(t2, others) + rest, 0.0, []) ==
      Flush(t1.pen, Reals(first) + Reals(others)) + Strokes(rest, 0.0, [])
    ensures UpFirst(SpotMarks(t1, first) + SpotMarks(t2, others) + rest)
  {
    var at := (first[0].x as real, first[0].y as real);
    var m := Mark(at.0, at.1, t1.pen, false);
    assert first[1..] == [] && SpotMarks(t1, first) == [m] && Reals(first) == [at];
    var tail := SpotMarks(t2, others) + rest;
    var all := SpotMarks(t1, first) + SpotMarks(t2, others) + rest;
    assert all == [m] + tail && all[1..] == tail;
    StrokesDown(t2, others, rest, t1.pen, [at]);
    StrokesCut(rest, t1.pen, [at] + Reals(others));
    var read := Strokes(tail, t1.pen, [at]);
    assert [] + read == read;
  }

  /** Whatever follows with the pen up, these marks read back as these strokes. */
  ghost predicate ReadsBefore(marks: seq<Mark>, strokes: seq<Stroke>, rest: seq<Mark>) {
    UpFirst(rest) ==>
      Strokes(marks + rest, 0.0, []) == strokes + Strokes(rest, 0.0, []) && UpFirst(marks + rest)
  }

  ghost predicate Reads(marks: seq<Mark>, strokes: seq<Stroke>) {
    forall rest :: ReadsBefore(marks, strokes, rest)
  }

  lemma ReadsNothing()
    ensures Reads([], [])
  {
    forall rest ensures ReadsBefore([], [], rest) {
      assert [] + rest == rest;
      assert [] + Strokes(rest, 0.0, []) == Strokes(rest, 0.0, []);
    }
  }

  lemma ReadsAppend(a: seq<Mark>, sa: seq<Stroke>, b: seq<Mark>, sb: seq<Stroke>)
    requires Reads(a, sa) && Reads(b, sb)
    ensures Reads(a + b, sa + sb)
  {
    forall rest ensures ReadsBefore(a + b, sa + sb, rest) {
      assert ReadsBefore(b, sb, rest) && ReadsBefore(a, sa, b + rest);
      assert a + (b + rest) == (a + b) + rest;
      PlusAssociates(sa, sb, Strokes(rest, 0.0, []));
    }
  }

  /** The drawing reads back as these strokes and leaves absolute mode on. */
  ghost predicate Draws(d: Drawing, strokes: seq<Stroke>) { Reads(d.marks, strokes) && d.end.absolute }

  lemma DrawsAppend(t: Turtle, a: seq<Instr>, sa: seq<Stroke>, b: seq<Instr>, sb: seq<Stroke>)
    requires Draws(DrawProgram(t, a), sa) && Draws(DrawProgram(DrawProgram(t, a).end, b), sb)
    ensures Draws(DrawProgram(t, a + b), sa + sb)
  {
    DrawProgramAppend(t, a, b);
    ReadsAppend(DrawProgram(t, a).marks, sa, DrawProgram(DrawProgram(t, a).end, b).marks, sb);
  }

  lemma LineReads(t: Turtle, spots: seq<Spot>)
    requires t.absolute
    ensures var d := LineResult(t, spots); Draws(d, Flush(t.pen, Reals(spots))) && d.end.pen == t.pen
  {
    var d := LineResult(t, spots);
    forall rest ensures ReadsBefore(d.marks, Flush(t.pen, Reals(spots)), rest) {
      if UpFirst(rest) {
        LineRead(t, spots, rest);
      }
    }
    LineRead(t, spots, []);
  }

  lemma LineDraws(t: Turtle, spots: seq<Spot>)
    requires t.absolute
    ensures var d := DrawProgram(t, LineProgram(spots));
      Draws(d, Flush(t.pen, Reals(spots))) && d.end.pen == t.pen
  {
    LineDrawing(t, spots);
    LineReads(t, spots);
  }

  lemma {:induction false} LinesDraw(t: Turtle, pen: int, lines: seq<seq<Point>>)
    requires t.absolute && t.pen == pen as real
    ensures Draws(DrawProgram(t, LinesProgram(lines)), LineStrokes(pen, lines))
    decreases |lines|
  {
    if lines == [] {
      ReadsNothing();
    } else {
      var spots := Rounded(lines[0]);
      LineDraws(t, spots);
      var next := DrawProgram(t, LineProgram(spots)).end;
      LinesDraw(next, pen, lines[1..]);
      DrawsAppend(t, LineProgram(spots), Flush(t.pen, Reals(spots)), LinesProgram(lines[1..]),
        LineStrokes(pen, lines[1..]));
    }
  }

  lemma DrawSelect(t: Turtle, pen: int)
    ensures DrawProgram(t, [Bare("SP" + IntText(pen))]) == Drawing([], t.(pen := pen as real))
  {
    var d := IntText(pen);
    IntRoundTrip(pen);
    PlainCharacters(d);
    DrawOneInstr(t, Bare("SP" + d));
    PartsOf("SP", d);
    assert Upper("SP") == "SP";
    ParseOne(d);
  }

  lemma ParseOne(d: string)
    requires Plain(d)
    ensures ParseNums(d) == Some([Value(d)])
  {
    PlainCharacters(d);
    StripTidy(d);
    NoSpacesToDrop(d);
    SplitPlain(d, ',');
    ParameterPlain(d);
    assert Parameters([d]) == Some([Value(d)]) by {
      assert [d][1..] == [] && [Value(d)] + [] == [Value(d)];
    }
  }

  /** A layer without plottable lines has no strokes and no pen selection. */
  lemma {:induction false} NoLines(pen: int, lines: seq<seq<Point>>)
    requires LinesProgram(lines) == []
    ensures LineStrokes(pen, lines) == []
    decreases |lines|
  {
    if lines != [] {
      assert LineProgram(Rounded(lines[0])) == [] && LinesProgram(lines[1..]) == [];
      NoLines(pen, lines[1..]);
    }
  }

  lemma LayerDraws(t: Turtle, pen: int, lines: seq<seq<Point>>)
    requires t.absolute
    ensures Draws(DrawProgram(t, LayerProgram(pen, lines)), LineStrokes(pen, lines))
  {
    if LinesProgram(lines) == [] {
      NoLines(pen, lines);
      ReadsNothing();
    } else {
      DrawSelect(t, pen);
      ReadsNothing();
      LinesDraw(t.(pen := pen as real), pen, lines);
      DrawsAppend(t, [Bare("SP" + IntText(pen))], [], LinesProgram(lines), LineStrokes(pen, lines));
      assert [] + LineStrokes(pen, lines) == LineStrokes(pen, lines);
    }
  }

  lemma {:induction false} LayersDraw(t: Turtle, ids: seq<int>, layers: map<int, seq<seq<Point>>>, pens: map<int, int>)
    requires forall id :: id in ids ==> id in layers
    requires t.absolute && LayersProgram(ids, layers, pens).Built?
    ensures Draws(DrawProgram(t, LayersProgram(ids, layers, pens).value), LayerStrokes(ids, layers, pens))
    decreases |ids|
  {
    if ids == [] {
      ReadsNothing();
    } else {
      var pen, lines := PenFor(pens, ids[0]), layers[ids[0]];
      LayerDraws(t, pen, lines);
      LayersDraw(DrawProgram(t, LayerProgram(pen, lines)).end, ids[1..], layers, pens);
      DrawsAppend(t, LayerProgram(pen, lines), LineStrokes(pen, lines),
                  LayersProgram(ids[1..], layers, pens).value, LayerStrokes(ids[1..], layers, pens));
    }
  }

  // ---- the whole job ------------------------------------------------------------------

  lemma DrawInit(t: Turtle, op: string)
    requires op == "IN" || op == "DF"
    ensures DrawProgram(t, [Bare(op)]) == Drawing([], t.(absolute := true, down := false))
  {
    DrawOneInstr(t, Bare(op));
    PartsOf(op, "");
    assert op + "" == op && Upper(op) == op;
  }

  lemma DrawVelocity(t: Turtle, v: string)
    requires Tidy(v)
    ensures DrawProgram(t, [Bare("VS" + v)]) == Drawing([], t)
  {
    DrawOneInstr(t, Bare("VS" + v));
    PartsOf("VS", v);
    assert Upper("VS") == "VS";
  }

  /** A header only initialises. */
  lemma HeaderDraws(t: Turtle, velocity: Option<string>)
    requires velocity.Some? ==> Tidy(velocity.value)
    ensures DrawProgram(t, Header(velocity)) == Drawing([], t.(absolute := true, down := false))
  {
    var ready := t.(absolute := true, down := false);
    DrawInit(t, "IN");
    DrawInit(ready, "DF");
    DrawProgramAppend(t, [Bare("IN")], [Bare("DF")]);
    assert [Bare("IN")] + [Bare("DF")] == [Bare("IN"), Bare("DF")];
    var init := [Bare("IN"), Bare("DF")];
    if velocity.Some? {
      DrawVelocity(ready, velocity.value);
      DrawProgramAppend(t, init, [Bare("VS" + velocity.value)]);
    } else {
      assert init + [] == init;
    }
  }

  lemma ParkDraws(t: Turtle, park: Spot)
    requires t.absolute
    ensures DrawProgram(t, [Mover("PU", [SpotPair(park)])]) ==
      Drawing([Mark(park.x as real, park.y as real, t.pen, false)],
              t.(x := park.x as real, y := park.y as real, down := false))
  {
    assert [park][1..] == [];
    assert SpotPairs([park]) == [SpotPair(park)];
    DrawSpots(t, "PU", [park]);
  }

  lemma StoreDraws(t: Turtle)
    ensures DrawProgram(t, [Bare("SP0")]) == Drawing([], t.(pen := 0.0))
  {
    assert IntText(0) == "0" && "SP" + "0" == "SP0";
    DrawSelect(t, 0);
  }

  /** The job parks with the pen up and puts it away. */
  lemma TrailerDraws(t: Turtle, park: Spot)
    requires t.absolute
    ensures var d := DrawProgram(t, Trailer(park));
      && d.marks == [Mark(park.x as real, park.y as real, t.pen, false)]
      && d.end == Turtle(park.x as real, park.y as real, true, 0.0, false)
      && Draws(d, [])
  {
    ParkDraws(t, park);
    StoreDraws(t.(x := park.x as real, y := park.y as real, down := false));
    DrawProgramAppend(t, [Mover("PU", [SpotPair(park)])], [Bare("SP0")]);
    assert [Mover("PU", [SpotPair(park)])] + [Bare("SP0")] == Trailer(park);
    var marks := [Mark(park.x as real, park.y as real, t.pen, false)];
    assert marks + [] == marks;
    ParkReads(marks[0]);
  }

  lemma ParkReads(m: Mark)
    requires !m.down
    ensures Reads([m], [])
  {
    forall rest ensures ReadsBefore([m], [], rest) {
      var all := [m] + rest;
      assert all[1..] == rest;
      if UpFirst(rest) {
        StrokesCut(rest, m.pen, [(m.x, m.y)]);
        var read := Strokes(rest, 0.0, []);
        assert [] + read == read && [] + ([] + read) == read;
      }
    }
  }

  ghost predicate Printable(instrs: seq<Instr>) {
    forall i :: 0 <= i < |instrs| ==> ';' !in TextOf(instrs[i])
  }

  lemma PrintableAppend(a: seq<Instr>, b: seq<Instr>)
    requires Printable(a) && Printable(b)
    ensures Printable(a + b)
  {
  }

  lemma PrintableSpots(head: string, spots: seq<Spot>)
    requires ';' !in head
    ensures Printable([Mover(head, SpotPairs(spots))])
  {
    SpotPairsPlain(spots);
    if spots != [] {
      PairsTextEnds(SpotPairs(spots));
    }
  }

  lemma {:induction false} PrintableLines(lines: seq<seq<Point>>)
    ensures Printable(LinesProgram(lines))
  {
    if lines != [] {
      var spots := Rounded(lines[0]);
      if |spots| >= 2 {
        PrintableSpots("PU", spots[..1]);
        PrintableSpots("PD", spots[1..]);
        PrintableAppend([Mover("PU", SpotPairs(spots[..1]))], [Mover("PD", SpotPairs(spots[1..]))]);
        assert LineProgram(spots) == [Mover("PU", SpotPairs(spots[..1]))] + [Mover("PD", SpotPairs(spots[1..]))];
      }
      PrintableLines(lines[1..]);
      PrintableAppend(LineProgram(spots), LinesProgram(lines[1..]));
    }
  }

  lemma {:induction false} PrintableLayers(ids: seq<int>, layers: map<int, seq<seq<Point>>>, pens: map<int, int>)
    requires forall id :: id in ids ==> id in layers
    requires LayersProgram(ids, layers, pens).Built?
    ensures Printable(LayersProgram(ids, layers, pens).value)
    decreases |ids|
  {
    if ids != [] {
      var pen, lines := PenFor(pens, ids[0]), layers[ids[0]];
      IntRoundTrip(pen);
      PlainCharacters(IntText(pen));
      PrintableLines(lines);
      PrintableAppend([Bare("SP" + IntText(pen))], LinesProgram(lines));
      PrintableLayers(ids[1..], layers, pens);
      PrintableAppend(LayerProgram(pen, lines), LayersProgram(ids[1..], layers, pens).value);
    }
  }

  lemma PrintableJob(body: seq<Instr>, park: Spot, velocity: Option<string>)
    requires Printable(body) && (velocity.Some? ==> ';' !in velocity.value)
    ensures Printable(Header(velocity) + body + Trailer(park))
  {
    assert Printable(Header(velocity));
    assert [park][1..] == [] && SpotPairs([park]) == [SpotPair(park)];
    PrintableSpots("PU", [park]);
    assert Printable([Bare("SP0")]);
    PrintableAppend([Mover("PU", [SpotPair(park)])], [Bare("SP0")]);
    assert [Mover("PU", [SpotPair(park)])] + [Bare("SP0")] == Trailer(park);
    PrintableAppend(Header(velocity), body);
    PrintableAppend(Header(velocity) + body, Trailer(park));
  }

  lemma JobDraws(t: Turtle, body: seq<Instr>, strokes: seq<Stroke>, park: Spot, velocity: Option<string>)
    requires Draws(DrawProgram(t.(absolute := true, down := false), body), strokes)
    requires velocity.Some? ==> Tidy(velocity.value)
    ensures var d := DrawProgram(t, Header(velocity) + body + Trailer(park));
      Reads(d.marks, strokes) && d.end == Turtle(park.x as real, park.y as real, true, 0.0, false)
  {
    HeaderDraws(t, velocity);
    ReadsNothing();
    DrawsAppend(t, Header(velocity), [], body, strokes);
    DrawProgramAppend(t, Header(velocity), body);
    assert [] + strokes == strokes;
    var end := DrawProgram(t, Header(velocity) + body).end;
    TrailerDraws(end, park);
    DrawsAppend(t, Header(velocity) + body, strokes, Trailer(park), []);
    DrawProgramAppend(t, Header(velocity) + body, Trailer(park));
    assert strokes + [] == strokes;
  }

  lemma ReadsAll(marks: seq<Mark>, strokes: seq<Stroke>)
    requires Reads(marks, strokes)
    ensures Strokes(marks, 0.0, []) == strokes
  {
    assert ReadsBefore(marks, strokes, []);
    assert marks + [] == marks && strokes + Strokes([], 0.0, []) == strokes;
  }

  /** Reading the plot of an assembled job back gives exactly the rounded polylines with at
      least two points, layer by layer in ascending order, each with its layer's pen; the job
      ends parked, pen up, pen stored. */
  lemma WriterRoundTrip(layers: map<int, seq<seq<Point>>>, pens: map<int, int>, park: Spot, velocity: Option<string>)
    requires velocity.Some? ==> Tidy(velocity.value) && ';' !in velocity.value
    requires JobProgram(layers, pens, park, velocity).Built?
    ensures var plot := Plot(Script(JobProgram(layers, pens, park, velocity).value));
      && Strokes(plot.marks, 0.0, []) == LayerStrokes(Order.Ascending(layers.Keys), layers, pens)
      && plot.end == Turtle(park.x as real, park.y as real, true, 0.0, false)
  {
    var ids := Order.Ascending(layers.Keys);
    var body := LayersProgram(ids, layers, pens).value;
    LayersDraw(HOME, ids, layers, pens);
    assert HOME.(absolute := true, down := false) == HOME;
    JobDraws(HOME, body, LayerStrokes(ids, layers, pens), park, velocity);
    PrintableLayers(ids, layers, pens);
    PrintableJob(body, park, velocity);
    Agreement.ScriptTokens(Header(velocity) + body + Trailer(park));
    ReadsAll(DrawProgram(HOME, Header(velocity) + body + Trailer(park)).marks, LayerStrokes(ids, layers, pens));
  }
}
