/** An assembled job passes the validator without a single finding, and the plotter finishes it
    parked with the pen up and put away, however its bytes arrive.  Points and park position
    are taken to lie inside the clip. */
module WriterAccepted {
  import opened Text
  import opened Numbers
  import opened Device
  import opened Emulator
  import Hpgl
  import Order
  import opened Validator
  import Soundness
  import opened SplitVerdict
  import opened Agreement
  import opened Writer
  import WriterMeaning

  // ---- geometry inside the paper ------------------------------------------------------

  /** A clip whose coordinates are ordinary numbers, as every paper's is. */
  predicate SaneClip(c: Clip) {
    -10000000 <= c.xmin && c.xmax <= 10000000 && -10000000 <= c.ymin && c.ymax <= 10000000
  }

  predicate SpotInside(c: Clip, p: Spot) { c.xmin <= p.x <= c.xmax && c.ymin <= p.y <= c.ymax }

  predicate PointInside(c: Clip, p: Point) {
    c.xmin as real <= p.x <= c.xmax as real && c.ymin as real <= p.y <= c.ymax as real
  }

  ghost predicate SpotsInside(c: Clip, spots: seq<Spot>) {
    forall i :: 0 <= i < |spots| ==> SpotInside(c, spots[i])
  }

  ghost predicate LineInside(c: Clip, line: seq<Point>) {
    forall i :: 0 <= i < |line| ==> PointInside(c, line[i])
  }

  ghost predicate LinesInside(c: Clip, lines: seq<seq<Point>>) {
    forall i :: 0 <= i < |lines| ==> LineInside(c, lines[i])
  }

  lemma {:induction false} RoundedInside(c: Clip, line: seq<Point>)
    requires LineInside(c, line)
    ensures SpotsInside(c, Rounded(line))
  {
    if line != [] {
      var p := line[0];
      assert PointInside(c, p);
      RoundingIsNear(p.x, c.xmin, c.xmax);
      RoundingIsNear(p.y, c.ymin, c.ymax);
      forall i | 0 <= i < |line[1..]| ensures PointInside(c, line[1..][i]) {
        assert line[1..][i] == line[i + 1];
      }
      RoundedInside(c, line[1..]);
    }
  }

  // ---- passing the validator ----------------------------------------------------------

  lemma {:induction false} WalkSpots(c: Clip, x: real, y: real, spots: seq<Spot>)
    requires SaneClip(c) && SpotsInside(c, spots)
    ensures PlainPairs(SpotPairs(spots))
    ensures var nums := Hpgl.Values(SpotPairs(spots));
      !AnyUnreasonable(nums) && WalkPairs(Some(c), true, x, y, nums).report == CLEAN
    decreases |spots|
  {
    WriterMeaning.SpotPairsPlain(spots);
    if spots != [] {
      var p := spots[0];
      WriterMeaning.SpotValues(p);
      var vx, vy := p.x as real, p.y as real;
      assert SpotPairs(spots)[1..] == SpotPairs(spots[1..]);
      var rest := Hpgl.Values(SpotPairs(spots[1..]));
      var nums := Hpgl.Values(SpotPairs(spots));
      assert nums == [vx, vy] + rest && nums[2..] == rest;
      assert SpotInside(c, p);
      forall i | 0 <= i < |spots[1..]| ensures SpotInside(c, spots[1..][i]) {
        assert spots[1..][i] == spots[i + 1];
      }
      WalkSpots(c, vx, vy, spots[1..]);
      UnreasonableAppend([vx, vy], rest);
      Soundness.ExtentMeans(c, Hpgl.Mark(vx, vy, 0.0, false));
      Soundness.ThenEmpty(CheckExtent(Some(c), vx, vy), WalkPairs(Some(c), true, vx, vy, rest).report);
    }
  }

  /** Nothing is found, and the tracker ends in `t`. */
  ghost predicate Passes(c: Clip, s: Tracker, instrs: seq<Instr>, t: Tracker) {
    CheckAll(Some(c), s, Kinds(Texts(instrs))) == Checked(t, CLEAN)
  }

  lemma PassesAppend(c: Clip, s: Tracker, a: seq<Instr>, t: Tracker, b: seq<Instr>, u: Tracker)
    requires Passes(c, s, a, t) && Passes(c, t, b, u)
    ensures Passes(c, s, a + b, u)
  {
    WriterMeaning.TextsAppend(a, b);
    KindsAppend(Texts(a), Texts(b));
    CheckAllAppend(Some(c), s, Kinds(Texts(a)), Kinds(Texts(b)));
    ThenAssociates(CLEAN, CLEAN, CLEAN);
  }

  lemma PassesOne(c: Clip, s: Tracker, i: Instr, kind: Kind, t: Tracker)
    requires KindOf(TextOf(i)) == kind && CheckKind(Some(c), s, kind) == Checked(t, CLEAN)
    ensures Passes(c, s, [i], t)
  {
    assert Texts([i]) == [TextOf(i)] + Texts([i][1..]);
    KindsCons(TextOf(i), []);
    ThenAssociates(CLEAN, CLEAN, CLEAN);
  }

  lemma PassMover(c: Clip, s: Tracker, head: string, spots: seq<Spot>) returns (t: Tracker)
    requires (head == "PU" || head == "PD") && s.absolute && SaneClip(c) && SpotsInside(c, spots)
    ensures Passes(c, s, [Mover(head, SpotPairs(spots))], t)
    ensures t.absolute && t.pen == s.pen && t.penDown == (head == "PD")
  {
    var s' := s.(seenBody := true);
    var pairs := SpotPairs(spots);
    WalkSpots(c, s.x, s.y, spots);
    MoverKind(head, pairs);
    CheckMover(Some(c), s, head, pairs);
    t := MoverOutcome(Some(c), s', head, Hpgl.Values(pairs)).state;
    PassesOne(c, s, Mover(head, pairs), Body(head, PairsText(pairs)), t);
  }

  lemma SelectKind(d: string)
    requires Tidy(d)
    ensures KindOf("SP" + d) == Body("SP", d)
  {
    Hpgl.PartsOf("SP", d);
    StripTidy("SP" + d);
    assert Upper("SP") == "SP";
  }

  lemma CheckSelect(c: Clip, s: Tracker, d: string, pen: real)
    requires d != "" && Hpgl.ParseNums(d) == Some([pen]) && IsWhole(pen) && 0.0 <= pen <= PENS
    ensures CheckKind(Some(c), s, Body("SP", d)) ==
      Checked(s.(seenBody := true, pen := pen, penDown := if pen == 0.0 then false else s.penDown), CLEAN)
  {
    ThenAssociates(CLEAN, CLEAN, CLEAN);
  }

  lemma PassSelect(c: Clip, s: Tracker, pen: int) returns (t: Tracker)
    requires 0 <= pen <= PEN_COUNT
    ensures Passes(c, s, [Bare("SP" + IntText(pen))], t)
    ensures t == s.(seenBody := true, pen := pen as real, penDown := if pen == 0 then false else s.penDown)
  {
    var d := IntText(pen);
    IntRoundTrip(pen);
    PlainCharacters(d);
    WriterMeaning.ParseOne(d);
    SelectKind(d);
    CheckSelect(c, s, d, pen as real);
    t := s.(seenBody := true, pen := pen as real, penDown := if pen == 0 then false else s.penDown);
    PassesOne(c, s, Bare("SP" + d), Body("SP", d), t);
  }

  lemma PassesNothing(c: Clip, s: Tracker)
    ensures Passes(c, s, [], s)
  {
  }

  lemma PassLine(c: Clip, s: Tracker, line: seq<Point>) returns (t: Tracker)
    requires s.absolute && SaneClip(c) && LineInside(c, line)
    ensures Passes(c, s, LineProgram(Rounded(line)), t) && t.absolute
  {
    var spots := Rounded(line);
    if |spots| < 2 {
      PassesNothing(c, s);
      t := s;
    } else {
      RoundedInside(c, line);
      var mid := PassMover(c, s, "PU", spots[..1]);
      t := PassMover(c, mid, "PD", spots[1..]);
      PassesAppend(c, s, [Mover("PU", SpotPairs(spots[..1]))], mid, [Mover("PD", SpotPairs(spots[1..]))], t);
      assert LineProgram(spots) == [Mover("PU", SpotPairs(spots[..1]))] + [Mover("PD", SpotPairs(spots[1..]))];
    }
  }

  lemma {:induction false} PassLines(c: Clip, s: Tracker, lines: seq<seq<Point>>) returns (t: Tracker)
    requires s.absolute && SaneClip(c) && LinesInside(c, lines)
    ensures Passes(c, s, LinesProgram(lines), t) && t.absolute
    decreases |lines|
  {
    if lines == [] {
      PassesNothing(c, s);
      t := s;
    } else {
      var mid := PassLine(c, s, lines[0]);
      t := PassLines(c, mid, lines[1..]);
      PassesAppend(c, s, LineProgram(Rounded(lines[0])), mid, LinesProgram(lines[1..]), t);
    }
  }

  lemma PassLayer(c: Clip, s: Tracker, pen: int, lines: seq<seq<Point>>) returns (t: Tracker)
    requires s.absolute && SaneClip(c) && LinesInside(c, lines) && 1 <= pen <= PEN_COUNT
    ensures Passes(c, s, LayerProgram(pen, lines), t) && t.absolute
  {
    if LinesProgram(lines) == [] {
      PassesNothing(c, s);
      t := s;
    } else {
      var mid := PassSelect(c, s, pen);
      t := PassLines(c, mid, lines);
      PassesAppend(c, s, [Bare("SP" + IntText(pen))], mid, LinesProgram(lines), t);
    }
  }

  lemma {:induction false} PassLayers(c: Clip, s: Tracker, ids: seq<int>, layers: map<int, seq<seq<Point>>>,
      pens: map<int, int>)
    returns (t: Tracker)
    requires forall id :: id in ids ==> id in layers && LinesInside(c, layers[id])
    requires s.absolute && SaneClip(c) && LayersProgram(ids, layers, pens).Built?
    ensures Passes(c, s, LayersProgram(ids, layers, pens).value, t) && t.absolute
    decreases |ids|
  {
    if ids == [] {
      PassesNothing(c, s);
      t := s;
    } else {
      var pen, lines := PenFor(pens, ids[0]), layers[ids[0]];
      var mid := PassLayer(c, s, pen, lines);
      t := PassLayers(c, mid, ids[1..], layers, pens);
      PassesAppend(c, s, LayerProgram(pen, lines), mid, LayersProgram(ids[1..], layers, pens).value, t);
    }
  }

  lemma InitKind(op: string)
    requires op == "IN" || op == "DF"
    ensures KindOf(op) == Init
  {
    Hpgl.PartsOf(op, "");
    StripTidy(op);
    assert op + "" == op && Upper(op) == op;
  }

  lemma PassHeader(c: Clip)
    ensures Passes(c, START, Header(None), START)
  {
    InitKind("IN");
    InitKind("DF");
    PassesOne(c, START, Bare("IN"), Init, START);
    PassesOne(c, START, Bare("DF"), Init, START);
    PassesAppend(c, START, [Bare("IN")], START, [Bare("DF")], START);
    assert [Bare("IN")] + [Bare("DF")] == [Bare("IN"), Bare("DF")];
    assert Header(None) == [Bare("IN"), Bare("DF")] + [];
  }

  lemma PassTrailer(c: Clip, s: Tracker, park: Spot) returns (t: Tracker)
    requires s.absolute && SaneClip(c) && SpotInside(c, park)
    ensures Passes(c, s, Trailer(park), t) && !t.penDown && t.pen == 0.0
  {
    assert [park][1..] == [] && SpotPairs([park]) == [SpotPair(park)];
    var mid := PassMover(c, s, "PU", [park]);
    assert IntText(0) == "0" && "SP" + "0" == "SP0";
    t := PassSelect(c, mid, 0);
    PassesAppend(c, s, [Mover("PU", [SpotPair(park)])], mid, [Bare("SP0")], t);
    assert [Mover("PU", [SpotPair(park)])] + [Bare("SP0")] == Trailer(park);
  }

  // ---- no control characters ----------------------------------------------------------

  ghost predicate QuietProgram(instrs: seq<Instr>) {
    forall i :: 0 <= i < |instrs| ==> Quiet(TextOf(instrs[i]))
  }

  lemma {:induction false} QuietScript(instrs: seq<Instr>)
    requires QuietProgram(instrs)
    ensures Quiet(Script(instrs))
  {
    if instrs != [] {
      QuietScript(instrs[1..]);
      QuietAppend(TextOf(instrs[0]) + ";", Script(instrs[1..]));
      QuietAppend(TextOf(instrs[0]), ";");
    }
  }

  predicate IsSelect(t: string, pen: int) { t == "SP" + IntText(pen) }

  /** What the writer emits: initialisation, pen selections, strokes of points on the paper. */
  ghost predicate Emitted(c: Clip, i: Instr) {
    match i
    case Bare(t) => t == "IN" || t == "DF" || (exists pen: int :: IsSelect(t, pen))
    case Mover(h, ps) =>
      (h == "PU" || h == "PD") && (exists spots :: spots != [] && SpotsInside(c, spots) && ps == SpotPairs(spots))
  }

  ghost predicate AllEmitted(c: Clip, instrs: seq<Instr>) {
    forall i :: 0 <= i < |instrs| ==> Emitted(c, instrs[i])
  }

  lemma SelectIsQuiet(t: string, pen: int)
    requires IsSelect(t, pen)
    ensures Quiet(t) && ';' !in t && Tidy(IntText(pen))
  {
    IntRoundTrip(pen);
    PlainCharacters(IntText(pen));
    QuietAppend("SP", IntText(pen));
  }

  lemma EmittedIsQuiet(c: Clip, i: Instr)
    requires Emitted(c, i)
    ensures Quiet(TextOf(i))
  {
    match i {
      case Bare(t) =>
        if t != "IN" && t != "DF" {
          var pen: int :| IsSelect(t, pen);
          SelectIsQuiet(t, pen);
        }
      case Mover(h, ps) =>
        var spots :| spots != [] && SpotsInside(c, spots) && ps == SpotPairs(spots);
        WriterMeaning.SpotPairsPlain(spots);
        PairsAreQuiet(ps);
        QuietAppend(h, PairsText(ps));
    }
  }

  lemma EmittedAppend(c: Clip, a: seq<Instr>, b: seq<Instr>)
    requires AllEmitted(c, a) && AllEmitted(c, b)
    ensures AllEmitted(c, a + b)
  {
  }

  lemma LineEmitted(c: Clip, spots: seq<Spot>)
    requires SpotsInside(c, spots)
    ensures AllEmitted(c, LineProgram(spots))
  {
    if |spots| >= 2 {
      assert spots[..1] != [] && spots[1..] != [];
      assert SpotsInside(c, spots[..1]) && SpotsInside(c, spots[1..]);
    }
  }

  lemma {:induction false} LinesEmitted(c: Clip, lines: seq<seq<Point>>)
    requires LinesInside(c, lines)
    ensures AllEmitted(c, LinesProgram(lines))
  {
    if lines != [] {
      RoundedInside(c, lines[0]);
      LineEmitted(c, Rounded(lines[0]));
      LinesEmitted(c, lines[1..]);
      EmittedAppend(c, LineProgram(Rounded(lines[0])), LinesProgram(lines[1..]));
    }
  }

  lemma {:induction false} LayersEmitted(c: Clip, ids: seq<int>, layers: map<int, seq<seq<Point>>>, pens: map<int, int>)
    requires forall id :: id in ids ==> id in layers && LinesInside(c, layers[id])
    requires LayersProgram(ids, layers, pens).Built?
    ensures AllEmitted(c, LayersProgram(ids, layers, pens).value)
    decreases |ids|
  {
    if ids != [] {
      var pen, lines := PenFor(pens, ids[0]), layers[ids[0]];
      LinesEmitted(c, lines);
      assert IsSelect("SP" + IntText(pen), pen) && Emitted(c, Bare("SP" + IntText(pen)));
      EmittedAppend(c, [Bare("SP" + IntText(pen))], LinesProgram(lines));
      LayersEmitted(c, ids[1..], layers, pens);
      EmittedAppend(c, LayerProgram(pen, lines), LayersProgram(ids[1..], layers, pens).value);
    }
  }

  lemma TrailerEmitted(c: Clip, park: Spot)
    requires SpotInside(c, park)
    ensures AllEmitted(c, Trailer(park))
  {
    assert [park][1..] == [] && SpotPairs([park]) == [SpotPair(park)] && [park] != [];
    assert SpotsInside(c, [park]) && Emitted(c, Mover("PU", [SpotPair(park)]));
    assert IntText(0) == "0" && "SP" + "0" == "SP0";
    assert IsSelect("SP0", 0) && Emitted(c, Bare("SP0"));
  }

  lemma JobEmitted(c: Clip, body: seq<Instr>, park: Spot)
    requires AllEmitted(c, body) && SpotInside(c, park)
    ensures AllEmitted(c, Header(None) + body + Trailer(park))
  {
    assert AllEmitted(c, Header(None));
    TrailerEmitted(c, park);
    EmittedAppend(c, Header(None), body);
    EmittedAppend(c, Header(None) + body, Trailer(park));
  }

  lemma EmittedIsQuietProgram(c: Clip, instrs: seq<Instr>)
    requires AllEmitted(c, instrs)
    ensures QuietProgram(instrs)
  {
    forall i | 0 <= i < |instrs| ensures Quiet(TextOf(instrs[i])) {
      EmittedIsQuiet(c, instrs[i]);
    }
  }

  // ---- the verdict --------------------------------------------------------------------

  /** With all points and the park position on the paper, no velocity and the size under the
      cap, the validator finds neither an error nor anything to warn about. */
  lemma WriterAccepted(layers: map<int, seq<seq<Point>>>, pens: map<int, int>, park: Spot, c: Clip)
    requires JobProgram(layers, pens, park, None).Built?
    requires SaneClip(c) && SpotInside(c, park) && forall id :: id in layers ==> LinesInside(c, layers[id])
    requires |Script(JobProgram(layers, pens, park, None).value)| <= MAX_JOB_BYTES
    ensures Validation(Script(JobProgram(layers, pens, park, None).value), Some(c)) == CLEAN
  {
    var ids := Order.Ascending(layers.Keys);
    var body := LayersProgram(ids, layers, pens).value;
    var job := Header(None) + body + Trailer(park);
    PassHeader(c);
    var mid := PassLayers(c, START, ids, layers, pens);
    var end := PassTrailer(c, mid, park);
    PassesAppend(c, START, Header(None), START, body, mid);
    PassesAppend(c, START, Header(None) + body, mid, Trailer(park), end);
    WriterMeaning.PrintableLayers(ids, layers, pens);
    WriterMeaning.PrintableJob(body, park, None);
    ScriptTokens(job);
    LayersEmitted(c, ids, layers, pens);
    JobEmitted(c, body, park);
    AcceptedScript(job, c, end);
  }

  lemma AcceptedScript(job: seq<Instr>, c: Clip, end: Tracker)
    requires AllEmitted(c, job) && Passes(c, START, job, end) && !end.penDown && end.pen == 0.0
    requires Hpgl.Tokens(Script(job)) == Texts(job) && Hpgl.Tail(Script(job)) == "" && |Script(job)| <= MAX_JOB_BYTES
    ensures Validation(Script(job), Some(c)) == CLEAN
  {
    EmittedIsQuietProgram(c, job);
    QuietScript(job);
    ControlsMean(Script(job), 0);
    ValidationParts(Script(job), Some(c));
    ThenAssociates(CLEAN, CLEAN, CLEAN);
    assert Strip("") == "";
  }

  // ---- the plotter --------------------------------------------------------------------

  function Power(k: nat): nat { if k == 0 then 1 else 10 * Power(k - 1) }

  lemma {:induction false} NatTextShort(n: nat, k: nat)
    requires k >= 1 && n < Power(k)
    ensures |NatText(n)| <= k
    decreases k
  {
    if n >= 10 {
      assert Power(0) == 1 && Power(k) == 10 * Power(k - 1) && k > 1;
      NatTextShort(n / 10, k - 1);
    }
  }

  lemma IntTextShort(n: int)
    requires -10000000 <= n <= 10000000
    ensures |IntText(n)| <= 9
  {
    assert Power(2) == 100 && Power(4) == 100 * Power(2) && Power(6) == 100 * Power(4) && Power(8) == 100 * Power(6);
    NatTextShort(if n < 0 then -n else n, 8);
  }

  lemma {:induction false} SpotPairsShort(c: Clip, spots: seq<Spot>)
    requires SaneClip(c) && SpotsInside(c, spots)
    ensures forall k :: 0 <= k < |spots| ==> |PairText(SpotPairs(spots)[k])| < PAIR_WINDOW
  {
    if spots != [] {
      assert SpotInside(c, spots[0]);
      IntTextShort(spots[0].x);
      IntTextShort(spots[0].y);
      assert SpotsInside(c, spots[1..]);
      SpotPairsShort(c, spots[1..]);
    }
  }

  lemma SelectIsWellFormed(t: string, pen: int)
    requires IsSelect(t, pen)
    ensures WellFormed(Bare(t))
  {
    SelectIsQuiet(t, pen);
    assert Prefix(t, 2) == "SP" && Prefix(t + ";", 2) == "SP" && Upper("SP") == "SP";
    assert Mnemonic(t) == "SP";
    Agreement.ExecuteSelect(PowerUp(A4_CLIP), t + ";");
  }

  lemma EmittedIsWellFormed(c: Clip, i: Instr)
    requires SaneClip(c) && Emitted(c, i)
    ensures WellFormed(i)
  {
    match i {
      case Bare(t) =>
        if t == "IN" || t == "DF" {
          assert Prefix(t + ";", 2) == t;
        } else {
          var pen: int :| IsSelect(t, pen);
          SelectIsWellFormed(t, pen);
        }
      case Mover(h, ps) =>
        var spots :| spots != [] && SpotsInside(c, spots) && ps == SpotPairs(spots);
        WriterMeaning.SpotPairsPlain(spots);
        SpotPairsShort(c, spots);
    }
  }

  lemma ParkIsExact(dev: Device, park: Spot)
    requires SpotInside(dev.clip, park)
    ensures PlainPairs([SpotPair(park)])
    ensures var at := Touched(dev, "PU", [SpotPair(park)]);
      at.x == park.x as real && at.y == park.y as real && !at.penDown
  {
    WriterMeaning.SpotValues(park);
    TargetUnclamped(PenSet(dev, "PU"), park.x as real, park.y as real);
  }

  /** The last two instructions decide where the pen rests. */
  lemma TrailerParks(r: Record, park: Spot)
    requires SpotInside(r.dev.clip, park) && SaneClip(r.dev.clip)
    ensures var dev := Perform(Perform(r, Mover("PU", [SpotPair(park)])), Bare("SP0")).dev;
      dev.x == park.x as real && dev.y == park.y as real && !dev.penDown && dev.pen == 0
  {
    var up := Mover("PU", [SpotPair(park)]);
    TrailerEmitted(r.dev.clip, park);
    assert Trailer(park)[0] == up;
    EmittedIsWellFormed(r.dev.clip, up);
    ParkIsExact(r.dev, park);
    PerformMover(r, up);
    StorePerforms(Perform(r, up));
  }

  lemma StorePerforms(r: Record)
    ensures Perform(r, Bare("SP0")).dev == r.dev.(pen := 0)
  {
    SelectZero(r.dev);
    assert TextOf(Bare("SP0")) + ";" == "SP0;";
  }

  lemma ZeroParam()
    ensures IntParam("0", 0) == 0
  {
    StripTidy("0");
    assert "0"[..0] == "" && NatValue("0") == 0 && DigitsEnd("0", 0) == 1;
  }

  lemma ExecuteSelect(dev: Device, token: string)
    requires Mnemonic(token) == "SP" && Params(token) == "0"
    ensures Execute(dev, token) == Effect(dev.(pen := 0), None)
  {
    ZeroParam();
  }

  lemma SelectZero(dev: Device)
    ensures Execute(dev, "SP0;") == Effect(dev.(pen := 0), None)
  {
    assert "SP" + "0" + ";" == "SP0;" && Upper("SP") == "SP";
    ParamsOf("SP", "0", "SP0;");
    ExecuteSelect(dev, "SP0;");
  }

  /** Under every arrival schedule the job ends parked with the pen up and put away. */
  lemma JobEndsParked(
    layers: map<int, seq<seq<Point>>>, pens: map<int, int>, park: Spot, p: Plotter, turns: seq<Turn>)
    requires JobProgram(layers, pens, park, None).Built? && Idle(p)
    requires SaneClip(p.dev.clip) && SpotInside(p.dev.clip, park)
    requires forall id :: id in layers ==> LinesInside(p.dev.clip, layers[id])
    ensures var job := JobProgram(layers, pens, park, None).value;
      var (q, left) := Play(p, Script(job), turns);
      left == "" && Work(q) == q ==>
        && q.dev.x == park.x as real && q.dev.y == park.y as real && !q.dev.penDown && q.dev.pen == 0
        && RecordOf(q) == PerformAll(RecordOf(p), job)
  {
    var c := p.dev.clip;
    var ids := Order.Ascending(layers.Keys);
    var body := LayersProgram(ids, layers, pens).value;
    var job := Header(None) + body + Trailer(park);
    LayersEmitted(c, ids, layers, pens);
    JobEmitted(c, body, park);
    forall i | 0 <= i < |job| ensures WellFormed(job[i]) { EmittedIsWellFormed(c, job[i]); }
    ScheduleIndependence(p, job, turns);
    PerformTrailer(RecordOf(p), Header(None) + body, park);
  }

  lemma {:induction false} PerformKeepsClip(r: Record, instrs: seq<Instr>)
    ensures PerformAll(r, instrs).dev.clip == r.dev.clip
    decreases |instrs|
  {
    if instrs != [] {
      PerformKeepsClip(r, instrs[..|instrs| - 1]);
      PerformOneKeepsClip(PerformAll(r, instrs[..|instrs| - 1]), instrs[|instrs| - 1]);
    }
  }

  lemma MoveKeepsClip(dev: Device, params: string, relative: bool)
    ensures Move(dev, params, relative).clip == dev.clip
  {
  }

  lemma ExecuteKeepsClip(dev: Device, token: string)
    ensures Execute(dev, token).Effect? ==> Execute(dev, token).dev.clip == dev.clip
  {
    var op, params := Mnemonic(token), Params(token);
    MoveKeepsClip(dev.(penDown := op == "PD"), params, false);
    MoveKeepsClip(dev, params, false);
    MoveKeepsClip(dev, params, true);
  }

  lemma PerformOneKeepsClip(r: Record, i: Instr)
    ensures Perform(r, i).dev.clip == r.dev.clip
  {
    ExecuteKeepsClip(r.dev, TextOf(i) + ";");
  }

  lemma PerformTrailer(r: Record, before: seq<Instr>, park: Spot)
    requires SpotInside(r.dev.clip, park) && SaneClip(r.dev.clip)
    ensures var dev := PerformAll(r, before + Trailer(park)).dev;
      dev.x == park.x as real && dev.y == park.y as real && !dev.penDown && dev.pen == 0
  {
    hide Execute, Perform;
    var up, store := Mover("PU", [SpotPair(park)]), Bare("SP0");
    var all := before + Trailer(park);
    assert all[|all| - 1] == store && all[..|all| - 1] == before + [up];
    assert (before + [up])[|before|] == up && (before + [up])[..|before|] == before;
    PerformKeepsClip(r, before);
    TrailerParks(PerformAll(r, before), park);
  }
}
