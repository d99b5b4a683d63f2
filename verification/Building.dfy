/** When a job is built from a drawing's layers, when it is refused, and the frame every built job
    has. */
module Building {
  import opened Text
  import opened Numbers
  import opened Device
  import opened Emulator
  import opened Order
  import opened Writer

  // ---- when a job is built ------------------------------------------------------------

  /** Layers without a pen of their own take pens 1 to 6 in turn. */
  lemma PensInTurn(pens: map<int, int>, layer: int)
    ensures layer in pens ==> PenFor(pens, layer) == pens[layer]
    ensures layer !in pens ==> 1 <= PenFor(pens, layer) <= 6 && PenFor(pens, layer) == PenFor(map[], layer)
    ensures PenFor(map[], 1) == 1
    ensures PenFor(map[], layer + 1) == if PenFor(map[], layer) == 6 then 1 else PenFor(map[], layer) + 1
  {
  }

  /** The layer's pen does not exist. */
  predicate WrongPen(pens: map<int, int>, layer: int) { PenFor(pens, layer) < 1 || PenFor(pens, layer) > 6 }

  /** The layer has a line with at least two points. */
  ghost predicate Plottable(lines: seq<seq<Point>>) { exists i :: 0 <= i < |lines| && |lines[i]| >= 2 }

  lemma {:induction false} LinesEmptyExactly(lines: seq<seq<Point>>)
    ensures LinesProgram(lines) == [] <==> !Plottable(lines)
  {
    if lines != [] {
      var rest := lines[1..];
      LinesEmptyExactly(rest);
      assert forall i :: 0 < i < |lines| ==> lines[i] == rest[i - 1];
      assert forall i :: 0 <= i < |rest| ==> rest[i] == lines[i + 1];
    }
  }

  /** The first wrong pen among the layers, in their order. */
  ghost predicate FirstWrong(ids: seq<int>, pens: map<int, int>, k: int) {
    0 <= k < |ids| && WrongPen(pens, ids[k]) && forall j :: 0 <= j < k ==> !WrongPen(pens, ids[j])
  }

  lemma {:induction false} LayersFailExactly(ids: seq<int>, layers: map<int, seq<seq<Point>>>, pens: map<int, int>)
    requires forall id :: id in ids ==> id in layers
    ensures match LayersProgram(ids, layers, pens)
      case Failed(e) => exists k :: FirstWrong(ids, pens, k) && e == BadPen(PenFor(pens, ids[k]), ids[k])
      case Built(body) =>
        && (forall k :: 0 <= k < |ids| ==> !WrongPen(pens, ids[k]))
        && (body == [] <==> forall k :: 0 <= k < |ids| ==> !Plottable(layers[ids[k]]))
    decreases |ids|
  {
    hide Plottable, WrongPen;
    if ids != [] {
      var rest := ids[1..];
      LayersFailExactly(rest, layers, pens);
      var first := ids[0];
      assert first in ids;
      LinesEmptyExactly(layers[first]);
      assert WrongPen(pens, ids[0]) <==> !(1 <= PenFor(pens, ids[0]) <= PEN_COUNT) by { WrongPenMeans(pens, ids[0]); }
      assert forall k :: 0 < k < |ids| ==> ids[k] == rest[k - 1];
      assert forall k :: 0 <= k < |rest| ==> rest[k] == ids[k + 1];
      if WrongPen(pens, ids[0]) {
        assert FirstWrong(ids, pens, 0);
      } else if LayersProgram(rest, layers, pens).Failed? {
        var k :| FirstWrong(rest, pens, k) &&
          LayersProgram(rest, layers, pens).error == BadPen(PenFor(pens, rest[k]), rest[k]);
        assert FirstWrong(ids, pens, k + 1);
      }
    }
  }

  lemma WrongPenMeans(pens: map<int, int>, layer: int)
    ensures WrongPen(pens, layer) <==> !(1 <= PenFor(pens, layer) <= PEN_COUNT)
  {
  }

  /** When a job is built: there are layers, all their pens exist, and some line has two points.
      Otherwise the error says which of these fails first, and names the wrong pen of the lowest
      layer that has one. */
  lemma BuildsExactly(layers: map<int, seq<seq<Point>>>, pens: map<int, int>, park: Spot, velocity: Option<string>)
    ensures match JobProgram(layers, pens, park, velocity)
      case Failed(NoGeometry) => layers == map[]
      case Failed(BadPen(pen, layer)) =>
        && layer in layers && pen == PenFor(pens, layer) && WrongPen(pens, layer)
        && forall id :: id in layers && id < layer ==> !WrongPen(pens, id)
      case Failed(NothingPlottable) =>
        && layers != map[] && (forall id :: id in layers ==> !WrongPen(pens, id) && !Plottable(layers[id]))
      case Built(_) =>
        && layers != map[] && (forall id :: id in layers ==> !WrongPen(pens, id))
        && exists id :: id in layers && Plottable(layers[id])
  {
    hide Plottable, WrongPen, LayersProgram;
    if layers != map[] {
      var ids := Ascending(layers.Keys);
      LayersFailExactly(ids, layers, pens);
      ByIndex(layers, pens);
      if LayersProgram(ids, layers, pens).Failed? {
        var k :| FirstWrong(ids, pens, k) &&
          LayersProgram(ids, layers, pens).error == BadPen(PenFor(pens, ids[k]), ids[k]);
        FirstIsLowest(layers, pens, k);
      }
    }
  }

  /** What holds of every layer holds at every place of the ascending list. */
  lemma ByIndex(layers: map<int, seq<seq<Point>>>, pens: map<int, int>)
    ensures var ids := Ascending(layers.Keys);
      && (forall id :: id in ids <==> id in layers)
      && ((forall k :: 0 <= k < |ids| ==> !WrongPen(pens, ids[k])) <==>
            forall id :: id in layers ==> !WrongPen(pens, id))
      && ((forall k :: 0 <= k < |ids| ==> !Plottable(layers[ids[k]])) <==>
            forall id :: id in layers ==> !Plottable(layers[id]))
  {
    hide Plottable, WrongPen;
    var ids := Ascending(layers.Keys);
    assert forall id :: id in ids <==> id in layers;
    assert forall k :: 0 <= k < |ids| ==> ids[k] in layers;
  }

  lemma FirstIsLowest(layers: map<int, seq<seq<Point>>>, pens: map<int, int>, k: int)
    requires FirstWrong(Ascending(layers.Keys), pens, k)
    ensures var ids := Ascending(layers.Keys);
      ids[k] in layers && WrongPen(pens, ids[k]) && forall id :: id in layers && id < ids[k] ==> !WrongPen(pens, id)
  {
    hide WrongPen;
    var ids := Ascending(layers.Keys);
    assert ids[k] in ids;
    forall id | id in layers && id < ids[k] ensures !WrongPen(pens, id) {
      var j :| 0 <= j < |ids| && ids[j] == id;
      assert j < k;
    }
  }

  /** How a built job begins and ends. */
  lemma JobFrame(layers: map<int, seq<seq<Point>>>, pens: map<int, int>, park: Spot, velocity: Option<string>)
    returns (body: string)
    requires JobProgram(layers, pens, park, velocity).Built?
    ensures Script(JobProgram(layers, pens, park, velocity).value) ==
      "IN;DF;" + (if velocity.Some? then "VS" + velocity.value + ";" else "") + body
        + ("PU" + IntText(park.x) + "," + IntText(park.y) + ";SP0;")
  {
    var program := LayersProgram(Ascending(layers.Keys), layers, pens).value;
    body := Script(program);
    hide Script, HeaderText, TrailerText, LayersProgram;
    JobScript(velocity, program, park);
    HeaderReads(velocity);
    TrailerReads(park);
  }

  lemma HeaderReads(velocity: Option<string>)
    ensures HeaderText(velocity) == "IN;DF;" + if velocity.Some? then "VS" + velocity.value + ";" else ""
  {
    assert "IN;" + "DF;" == "IN;DF;";
  }

  lemma TrailerReads(park: Spot)
    ensures TrailerText(park) == "PU" + IntText(park.x) + "," + IntText(park.y) + ";SP0;"
  {
    hide IntText;
    var x, y := IntText(park.x), IntText(park.y);
    assert "PU" + (x + "," + y) == "PU" + x + "," + y;
    assert ";" + "SP0" + ";" == ";SP0;";
    assert ("PU" + x + "," + y) + ";" + "SP0" + ";" == ("PU" + x + "," + y) + (";" + "SP0" + ";");
  }
}
