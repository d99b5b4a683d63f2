/** What the plotter draws. */
module Plotting {
  // Execution follows the plot of the text: after every instruction, and at every moment of every
  // arrival schedule, the plotter's point, pen and pen state are those of the plot so far; and a
  // written job is drawn polyline by polyline with its layers' pens.

  import opened Text
  import opened Numbers
  import opened Device
  import opened Emulator
  import opened Hpgl
  import Agreement
  import Order
  import opened Writer
  import opened WriterMeaning
  import WriterAccepted
  import Validator
  import Rules

  // ---- selecting a pen ----------------------------------------------------------------

  /** A decimal number and its digits behind the sign. */
  lemma PlainDigits(d: string)
    requires Plain(d)
    ensures var off := if d[0] == '-' then 1 else 0;
      var digits := d[off..];
      && digits != "" && d[0] != '+' && digits[0] != '-' && digits[0] != '+'
      && Number(d) == (match Unsigned(digits)
         case None => None
         case Some(v) => Some(if d[0] == '-' then -v else v))
      && (DigitsEnd(digits, 0) == |digits| <==> '.' !in d)
  {
    PlainCharacters(d);
    var off := if d[0] == '-' then 1 else 0;
    var digits := d[off..];
    var k := DigitsEnd(d, off);
    DigitsEndMeaning(d, off);
    DigitsShift(d, digits, off, 0);
    if k < |d| {
      DigitsEndMeaning(d, k + 1);
      assert d[k] == '.';
    } else {
      assert forall i :: 0 <= i < |d| ==> d[i] != '.';
    }
  }

  /** What the executor makes of a plain number as a pen: the number when it is written without a
      point, pen 0 otherwise. */
  lemma PenOf(d: string)
    requires Plain(d)
    ensures '.' !in d ==> IntParam(d, 0) as real == Value(d)
    ensures '.' in d ==> IntParam(d, 0) == 0
  {
    PlainCharacters(d);
    PlainDigits(d);
    StripTidy(d);
    var digits := if d[0] == '-' then d[1..] else d;
    assert digits[..|digits|] == digits;
  }

  lemma SelectExecutes(dev: Device, head: string, d: string)
    requires Upper(head) == "SP" && Plain(d)
    ensures Execute(dev, head + d + ";") == Effect(dev.(pen := IntParam(d, 0)), None)
  {
    PlainCharacters(d);
    ParamsOf(head, d, head + d + ";");
  }

  lemma SelectDraws(t: Turtle, head: string, d: string)
    requires Upper(head) == "SP" && Plain(d)
    ensures Draw(t, head + d) == Drawing([], t.(pen := Value(d)))
  {
    PlainCharacters(d);
    assert Upper(head)[0] == 'S' && Upper(head)[1] == 'P';
    assert IsAlpha(head[0]) && IsAlpha(head[1]);
    PartsOf(head, d);
    ParseOne(d);
  }

  /** A pen given as a plain number: plotter and plot take the same pen exactly when it is written
      without a decimal point, or is zero. */
  lemma SamePenExactly(dev: Device, t: Turtle, d: string)
    requires Plain(d)
    ensures var e := Execute(dev, "SP" + d + ";");
      e.Effect? && (e.dev.pen as real == Draw(t, "SP" + d).end.pen <==> '.' !in d || Value(d) == 0.0)
  {
    assert Upper("SP") == "SP";
    SelectExecutes(dev, "SP", d);
    SelectDraws(t, "SP", d);
    PenOf(d);
  }

  /** Every whole number selects the pen of that number, and nothing else changes. */
  lemma WholePen(dev: Device, n: int)
    ensures Execute(dev, "SP" + IntText(n) + ";") == Effect(dev.(pen := n), None)
  {
    var d := IntText(n);
    IntRoundTrip(n);
    IntTextHasNoPoint(n);
    assert Upper("SP") == "SP";
    SelectExecutes(dev, "SP", d);
    PenOf(d);
    assert Value(d) == n as real;
  }

  lemma IntTextHasNoPoint(n: int)
    ensures '.' !in IntText(n)
  {
    var m := if n < 0 then -n else n;
    assert forall i :: 0 <= i < |NatText(m)| ==> IsDigit(NatText(m)[i]);
  }

  lemma DecimalText(n: nat)
    requires n <= 6
    ensures var d := NatText(n) + "." + "0"; Plain(d) && Value(d) == n as real && '.' in d
  {
    hide NatText;
    var w := NatText(n);
    var d := w + "." + "0";
    DecimalEnds(w, "0");
    DecimalValue(w, "0");
    NatRoundTrip(n);
    assert Fraction("0") == 0.0 by { assert "0"[1..] == ""; }
    assert d[|w|] == '.' && d[0] == w[0] && IsDigit(w[0]);
    assert d[|w|] in d;
  }

  /** A pen written with a point is accepted, and the plotter takes pen 0 for it. */
  lemma DecimalPenIsAccepted(n: nat, clip: Option<Clip>, dev: Device)
    requires n <= 6
    ensures var t := "SP" + (NatText(n) + "." + "0") + ";";
      Validator.Ok(t, clip) && Execute(dev, t) == Effect(dev.(pen := 0), None)
  {
    hide Execute;
    var d := NatText(n) + "." + "0";
    DecimalText(n);
    assert Upper("SP") == "SP";
    SelectExecutes(dev, "SP", d);
    PenOf(d);
    assert |NatText(n)| == 1;
    SelectIsAccepted(d, n, clip);
  }

  lemma SelectIsAccepted(d: string, n: nat, clip: Option<Clip>)
    requires Plain(d) && Value(d) == n as real && n <= 6 && |d| < 100
    ensures Validator.Ok("SP" + d + ";", clip)
  {
    hide Rules.TokenLawful, Rules.Resets, Rules.Courses, Rules.AllInReach, Tokens, Tail;
    var t := "SP" + d;
    PlainCharacters(d);
    OneToken(t);
    StripTidy("");
    SelectIsLawful(d, n, clip);
    forall i | 0 <= i < |t + ";"| ensures !Rules.IsForbidden((t + ";")[i]) {
      assert i >= 2 && i < |t| ==> (t + ";")[i] == d[i - 2];
    }
    Rules.AcceptedExactly(t + ";", clip);
  }

  lemma SelectIsLawful(d: string, n: nat, clip: Option<Clip>)
    requires Plain(d) && Value(d) == n as real && n <= 6
    ensures Rules.TokenLawful("SP" + d) && Rules.AllInReach(clip, Rules.Courses(HOME, ["SP" + d]).marks)
  {
    var t := "SP" + d;
    PlainCharacters(d);
    PartsOf("SP", d);
    StripTidy(t);
    assert Upper("SP") == "SP";
    ParseOne(d);
    assert [t][1..] == [] && Rules.Course(HOME, t).marks == [];
  }

  // ---- one instruction ----------------------------------------------------------------

  /** The plotter's point, pen and pen state are those of the plot. */
  ghost predicate Agrees(dev: Device, t: Turtle) {
    dev.x == t.x && dev.y == t.y && dev.pen as real == t.pen && dev.penDown == t.down && t.absolute
  }

  predicate WholeNumber(d: string) { Plain(d) && '.' !in d }

  /** Both sides read the same instruction: no blank hides its mnemonic, pens are whole numbers, and
      it does not switch to relative coordinates. */
  predicate SameReading(text: string) {
    var op := OpOf(text);
    op == Mnemonic(text) && op != "PR" && (op == "SP" ==> |text| >= 2 && WholeNumber(text[2..]))
  }

  /** An instruction the plotter draws as written: a mover inside the clip, or anything else both
      sides read alike. */
  ghost predicate Drawn(c: Clip, i: Instr) {
    && WellFormed(i)
    && match i
       case Bare(t) => SameReading(t)
       case Mover(_, pairs) => Agreement.PairsInClip(c, pairs)
  }

  ghost predicate AllDrawn(c: Clip, instrs: seq<Instr>) {
    forall i :: 0 <= i < |instrs| ==> Drawn(c, instrs[i])
  }

  lemma SelectFollows(dev: Device, t: Turtle, text: string)
    requires Agrees(dev, t) && SameReading(text) && OpOf(text) == "SP"
    ensures var e := Execute(dev, text + ";");
      && e.Effect? && e.dev.clip == dev.clip && Agrees(e.dev, Draw(t, text).end) && Draw(t, text).marks == []
  {
    var head, d := text[..2], text[2..];
    assert text == head + d && Prefix(text, 2) == head;
    SelectExecutes(dev, head, d);
    SelectDraws(t, head, d);
    PenOf(d);
  }

  /** Behind two characters the terminator does not change the mnemonic. */
  lemma TokenMnemonic(text: string)
    ensures |text| >= 2 ==> Mnemonic(text + ";") == Mnemonic(text)
    ensures |text| < 2 ==> |Mnemonic(text)| < 2 && Mnemonic(text + ";")[|text|] == ';'
  {
    if |text| >= 2 {
      assert Prefix(text + ";", 2) == Prefix(text, 2);
    }
  }

  lemma BareArgs(text: string)
    requires IsMover(Mnemonic(text)) && |text| <= 2
    ensures ParseNums(ArgsOf(text)) == Some([]) && Params(text + ";") == "" && Mnemonic(text + ";") == Mnemonic(text)
  {
    MoverOp(text);
    StripTidy(text);
    Agreement.BareParams(text);
    assert Suffix(text, 2) == "";
  }

  lemma BareMoverExecutes(dev: Device, op: string, token: string)
    requires Mnemonic(token) == op && (op == "PU" || op == "PD" || op == "PA") && Params(token) == ""
    ensures Execute(dev, token) == Effect(PenSet(dev, op), None)
  {
    ExecuteKnown(dev, op, "", token);
  }

  lemma BareMoverDraws(t: Turtle, op: string, text: string)
    requires OpOf(text) == op && (op == "PU" || op == "PD" || op == "PA") && ParseNums(ArgsOf(text)) == Some([])
    ensures Draw(t, text) == Drawing([], Prepared(t, op))
  {
    MotionVisits(t, op, []);
  }

  lemma PreparedAgrees(dev: Device, t: Turtle, op: string)
    requires Agrees(dev, t) && (op == "PU" || op == "PD" || op == "PA")
    ensures Agrees(PenSet(dev, op), Prepared(t, op)) && PenSet(dev, op).clip == dev.clip
  {
  }

  /** A mover without coordinates only sets the pen. */
  lemma BareMoverFollows(dev: Device, t: Turtle, text: string)
    requires Agrees(dev, t) && SameReading(text) && IsMover(OpOf(text)) && |text| <= 2
    ensures var e := Execute(dev, text + ";");
      && e.Effect? && e.dev.clip == dev.clip && Agrees(e.dev, Draw(t, text).end) && Draw(t, text).marks == []
  {
    var op := OpOf(text);
    BareArgs(text);
    hide Execute, Draw, OpOf, Mnemonic, Params, ArgsOf, ParseNums, PenSet, Prepared, Agrees;
    BareMoverExecutes(dev, op, text + ";");
    BareMoverDraws(t, op, text);
    PreparedAgrees(dev, t, op);
  }

  predicate IsReset(op: string) { op == "IN" || op == "DF" }

  /** What else the plotter executes leaves point and pen alone; initialising lifts the pen. */
  lemma OtherExecutes(dev: Device, token: string)
    requires var op := Mnemonic(token); !IsMover(op) && op != "SP"
    ensures var e := Execute(dev, token);
      e.Effect? ==>
        && e.dev.x == dev.x && e.dev.y == dev.y && e.dev.pen == dev.pen && e.dev.clip == dev.clip
        && e.dev.penDown == (dev.penDown && !IsReset(Mnemonic(token)))
  {
    hide Params, Mnemonic, Float;
  }

  lemma OtherDraws(t: Turtle, text: string)
    requires !IsMover(OpOf(text)) && OpOf(text) != "SP"
    ensures Draw(t, text) ==
      Drawing([], if IsReset(OpOf(text)) then t.(absolute := true, down := false) else t)
  {
    hide ParseNums, OpOf, ArgsOf;
  }

  lemma OtherFollows(dev: Device, t: Turtle, text: string)
    requires Agrees(dev, t) && SameReading(text) && !IsMover(OpOf(text)) && OpOf(text) != "SP"
    requires !Execute(dev, text + ";").Crash?
    ensures var e := Execute(dev, text + ";");
      && e.dev.clip == dev.clip && Agrees(e.dev, Draw(t, text).end) && Draw(t, text).marks == []
  {
    hide Execute, Draw, OpOf, Mnemonic;
    TokenMnemonic(text);
    OtherExecutes(dev, text + ";");
    OtherDraws(t, text);
  }

  lemma BareFollows(dev: Device, t: Turtle, text: string)
    requires Agrees(dev, t) && WellFormed(Bare(text)) && SameReading(text)
    ensures var e := Execute(dev, text + ";");
      && e.Effect? && e.dev.clip == dev.clip && Agrees(e.dev, Draw(t, text).end) && Draw(t, text).marks == []
  {
    hide Execute, Draw, SameReading, OpOf;
    CrashIsTextual(dev, PowerUp(A4_CLIP), text + ";");
    if OpOf(text) == "SP" {
      SelectFollows(dev, t, text);
    } else if IsMover(OpOf(text)) {
      assert OpOf(text) == Mnemonic(text) by { SameOp(text); }
      BareMoverFollows(dev, t, text);
    } else {
      OtherFollows(dev, t, text);
    }
  }

  lemma SameOp(text: string)
    requires SameReading(text)
    ensures OpOf(text) == Mnemonic(text)
  {
  }

  lemma TouchedPen(dev: Device, head: string, pairs: seq<Pair>)
    requires pairs != [] && PlainPairs(pairs)
    ensures var at := Touched(dev, head, pairs);
      at.pen == dev.pen && at.penDown == PenSet(dev, head).penDown && at.clip == dev.clip
  {
  }

  /** A mover's pairs, up to any of them: the plotter stands where the plot has come to. */
  lemma MoverFollows(dev: Device, t: Turtle, head: string, pairs: seq<Pair>, j: nat)
    requires Agrees(dev, t) && (head == "PU" || head == "PD" || head == "PA")
    requires PlainPairs(pairs) && Agreement.PairsInClip(dev.clip, pairs) && 0 < j <= |pairs|
    ensures PlainPairs(pairs[..j])
    ensures var at := Touched(dev, head, pairs[..j]);
      at.clip == dev.clip && Agrees(at, Draw(t, head + PairsText(pairs[..j])).end)
  {
    hide Touched, Draw, Visit, Value, Plain;
    var done := pairs[..j];
    PlainSlices(pairs, j);
    Agreement.NoStopIsClamped(dev, head, pairs, j);
    TouchedPen(dev, head, done);
    DrawMover(t, head, done);
    VisitEnds(Prepared(t, head), done);
    assert done[|done| - 1] == pairs[j - 1];
  }

  /** Absolute pairs end at the last of them. */
  lemma {:induction false} VisitEnds(t: Turtle, pairs: seq<Pair>)
    requires PlainPairs(pairs) && pairs != [] && t.absolute
    ensures var last := pairs[|pairs| - 1];
      PlainPair(last) && Visit(t, Values(pairs)).end == t.(x := Value(last.x), y := Value(last.y))
    decreases |pairs|
  {
    hide Value, Plain;
    var p, nums := pairs[0], Values(pairs);
    assert PlainPair(p);
    assert nums == [Value(p.x), Value(p.y)] + Values(pairs[1..]) && nums[2..] == Values(pairs[1..]);
    if |pairs| > 1 {
      VisitEnds(StepTo(t, nums[0], nums[1]), pairs[1..]);
    }
  }

  // ---- whole programs -----------------------------------------------------------------

  lemma StepFollows(c: Clip, r: Record, t: Turtle, i: Instr)
    requires Drawn(c, i) && r.dev.clip == c && Agrees(r.dev, t)
    ensures var dev := Perform(r, i).dev; dev.clip == c && Agrees(dev, Draw(t, TextOf(i)).end)
  {
    hide Execute, Draw, Touched;
    if i.Mover? {
      PerformMover(r, i);
      MoverFollows(r.dev, t, i.head, i.pairs, |i.pairs|);
      assert i.pairs[..|i.pairs|] == i.pairs;
    } else {
      BareFollows(r.dev, t, i.text);
    }
  }

  lemma DrawNext(t: Turtle, instrs: seq<Instr>, n: nat)
    requires n < |instrs|
    ensures DrawProgram(t, instrs[..n + 1]).end == Draw(DrawProgram(t, instrs[..n]).end, TextOf(instrs[n])).end
  {
    Agreement.PrefixStep(instrs, n);
    DrawProgramAppend(t, instrs[..n], [instrs[n]]);
    DrawOneInstr(DrawProgram(t, instrs[..n]).end, instrs[n]);
  }

  /** After every instruction of a program inside the clip, the plotter's point, pen and pen state
      are those of the plot of the text so far. */
  lemma {:induction false} ExecutionFollowsPlot(c: Clip, instrs: seq<Instr>, r0: Record, t0: Turtle, n: nat)
    requires AllDrawn(c, instrs) && r0.dev.clip == c && Agrees(r0.dev, t0) && n <= |instrs|
    ensures var dev := PerformAll(r0, instrs[..n]).dev;
      dev.clip == c && Agrees(dev, DrawAll(t0, Agreement.Texts(instrs[..n])).end)
  {
    hide Perform, Draw, Agrees;
    if n > 0 {
      ExecutionFollowsPlot(c, instrs, r0, t0, n - 1);
      PerformNext(r0, instrs, n - 1);
      DrawNext(t0, instrs, n - 1);
      StepFollows(c, PerformAll(r0, instrs[..n - 1]), DrawProgram(t0, instrs[..n - 1]).end, instrs[n - 1]);
    }
  }

  /** Where the pen is, against the plot of the text, after `g` of the program. */
  ghost predicate FollowsPlot(t0: Turtle, instrs: seq<Instr>, q: Plotter, g: Progress) {
    && g.i <= |instrs|
    && var before := DrawAll(t0, Agreement.Texts(instrs[..g.i])).end;
       match g
       case At(i) => Agrees(q.dev, before)
       case Inside(i, j) =>
         && i < |instrs| && instrs[i].Mover? && j < |instrs[i].pairs|
         && Agrees(q.dev, if j == 0 then before
                          else Draw(before, instrs[i].head + PairsText(instrs[i].pairs[..j])).end)
  }

  lemma ConsistentFollows(c: Clip, instrs: seq<Instr>, r0: Record, t0: Turtle, left: string, q: Plotter, g: Progress)
    requires Program(instrs) && AllDrawn(c, instrs) && r0.dev.clip == c && Agrees(r0.dev, t0)
    requires Consistent(r0, instrs, left, q, g)
    ensures FollowsPlot(t0, instrs, q, g)
  {
    hide Execute, Perform, Draw, Agrees;
    ExecutionFollowsPlot(c, instrs, r0, t0, g.i);
    match g {
      case At(i) =>
      case Inside(i, j) =>
        if j > 0 {
          assert Drawn(c, instrs[i]);
          MoverFollows(PerformAll(r0, instrs[..i]).dev, DrawAll(t0, Agreement.Texts(instrs[..i])).end,
                       instrs[i].head, instrs[i].pairs, j);
        }
    }
  }

  /** At every moment of every arrival schedule the plotter's point, pen and pen state are those of
      the plot up to a certain instruction, and inside a mover up to a certain pair. */
  lemma PlotterFollowsPlot(p: Plotter, instrs: seq<Instr>, t0: Turtle, turns: seq<Turn>) returns (g: Progress)
    requires AllDrawn(p.dev.clip, instrs) && Idle(p) && Agrees(p.dev, t0)
    ensures var (q, left) := Play(p, Script(instrs), turns);
      && FollowsPlot(t0, instrs, q, g)
      && (left == "" && Work(q) == q ==> g == At(|instrs|))
  {
    hide Execute, Work, Perform, Draw, Agrees;
    var r0 := RecordOf(p);
    var (q, left) := Play(p, Script(instrs), turns);
    assert Program(instrs);
    IdleIsConsistent(p, instrs);
    g := PlayKeeps(r0, instrs, Script(instrs), p, At(0), turns);
    if left == "" && Work(q) == q {
      g := WorkKeeps(r0, instrs, left, q, g);
    }
    ConsistentFollows(p.dev.clip, instrs, r0, t0, left, q, g);
  }

  // ---- every point that is reached ----------------------------------------------------

  /** The device after some tokens, and the points it was moved to, each with its pen. */
  datatype Trace = Trace(dev: Device, marks: seq<Mark>, dead: bool)

  function Here(dev: Device): Mark { Mark(dev.x, dev.y, dev.pen as real, dev.penDown) }

  predicate HasCoordinates(token: string) { IsMover(Mnemonic(token)) && Params(token) != "" }

  function Execution(dev: Device, tokens: seq<string>): Trace
    decreases |tokens|
  {
    if tokens == [] then Trace(dev, [], false)
    else
      match Execute(dev, tokens[0])
      case Crash => Trace(dev, [], true)
      case Effect(next, _) =>
        var rest := Execution(next, tokens[1..]);
        Trace(rest.dev, (if HasCoordinates(tokens[0]) then [Here(next)] else []) + rest.marks, rest.dead)
  }

  /** The tokens a mover is executed by when it arrives pair by pair: it grows by one pair each. */
  function Growing(head: string, pairs: seq<Pair>, j: nat): seq<string>
    decreases |pairs| - j
  {
    if j >= |pairs| then []
    else [head + PairsText(pairs[..j + 1]) + (if j + 1 == |pairs| then ";" else ",")] + Growing(head, pairs, j + 1)
  }

  function Pops(i: Instr): seq<string> {
    match i
    case Bare(t) => [t + ";"]
    case Mover(head, pairs) => Growing(head, pairs, 0)
  }

  function AllPops(instrs: seq<Instr>): seq<string> {
    if instrs == [] then [] else Pops(instrs[0]) + AllPops(instrs[1..])
  }

  /** The point a token was moved to, if it was. */
  function Reached(token: string, next: Device): seq<Mark> { if HasCoordinates(token) then [Here(next)] else [] }

  lemma ExecutionCons(dev: Device, tokens: seq<string>)
    requires tokens != []
    ensures match Execute(dev, tokens[0])
      case Crash => Execution(dev, tokens).dead
      case Effect(next, _) =>
        var rest := Execution(next, tokens[1..]);
        Execution(dev, tokens) == Trace(rest.dev, Reached(tokens[0], next) + rest.marks, rest.dead)
  {
  }

  lemma MarksAssociate(a: seq<Mark>, b: seq<Mark>, c: seq<Mark>)
    ensures a + (b + c) == (a + b) + c && [] + a == a
  {
  }

  lemma {:induction false} ExecutionAppend(dev: Device, a: seq<string>, b: seq<string>)
    requires !Execution(dev, a).dead
    ensures var first := Execution(dev, a);
      var second := Execution(first.dev, b);
      Execution(dev, a + b) == Trace(second.dev, first.marks + second.marks, second.dead)
    decreases |a|
  {
    hide Execute, Execution, Reached;
    if a == [] {
      assert a + b == b;
      NoTokens(dev);
      MarksAssociate(Execution(dev, b).marks, [], []);
    } else {
      assert (a + b)[1..] == a[1..] + b && (a + b)[0] == a[0];
      ExecutionCons(dev, a);
      ExecutionCons(dev, a + b);
      var next := Execute(dev, a[0]).dev;
      ExecutionAppend(next, a[1..], b);
      var rest := Execution(next, a[1..]);
      MarksAssociate(Reached(a[0], next), rest.marks, Execution(rest.dev, b).marks);
    }
  }

  lemma ExecutionOne(dev: Device, token: string)
    requires Execute(dev, token).Effect?
    ensures var next := Execute(dev, token).dev;
      Execution(dev, [token]) == Trace(next, if HasCoordinates(token) then [Here(next)] else [], false)
  {
    var next := Execute(dev, token).dev;
    assert [token][1..] == [] && Execution(next, []) == Trace(next, [], false);
  }

  /** Executing one more pair. */
  lemma PairExecutes(dev: Device, head: string, pairs: seq<Pair>, j: nat, token: string)
    requires (head == "PU" || head == "PD" || head == "PA") && PlainPairs(pairs) && j < |pairs|
    requires Agreement.PairsInClip(dev.clip, pairs) && PlainPairs(pairs[..j]) && PlainPairs(pairs[..j + 1])
    requires token == head + PairsText(pairs[..j + 1]) + ";" || token == head + PairsText(pairs[..j + 1]) + ","
    ensures PlainPair(pairs[j]) && HasCoordinates(token)
    ensures var next := Touched(dev, head, pairs[..j + 1]);
      && Execute(Touched(dev, head, pairs[..j]), token) == Effect(next, None)
      && Here(next) == Mark(Value(pairs[j].x), Value(pairs[j].y), dev.pen as real, PenSet(dev, head).penDown)
  {
    hide Execute, Touched, PenSet, HasCoordinates, Value, Plain;
    var more := pairs[..j + 1];
    Agreement.NoStopIsClamped(dev, head, pairs, j + 1);
    ExecuteMover(Touched(dev, head, pairs[..j]), head, more, token);
    TouchedTwice(dev, head, pairs[..j], more);
    TouchedPen(dev, head, more);
    CoordinatesAreSeen(head, more, token);
  }

  lemma CoordinatesAreSeen(head: string, pairs: seq<Pair>, token: string)
    requires (head == "PU" || head == "PD" || head == "PA") && PlainPairs(pairs) && pairs != []
    requires token == head + PairsText(pairs) + ";" || token == head + PairsText(pairs) + ","
    ensures HasCoordinates(token)
  {
    PairsTextEnds(pairs);
    ParamsOf(head, PairsText(pairs), token);
    assert Upper(head) == head;
  }

  lemma NextVisit(t: Turtle, pairs: seq<Pair>)
    requires PlainPairs(pairs) && pairs != [] && PlainPairs(pairs[1..]) && PlainPair(pairs[0]) && t.absolute
    ensures var x, y := Value(pairs[0].x), Value(pairs[0].y);
      Visit(t, Values(pairs)).marks == [Mark(x, y, t.pen, t.down)] + Visit(t.(x := x, y := y), Values(pairs[1..])).marks
  {
    hide Value, Plain;
    var nums := Values(pairs);
    assert nums == [Value(pairs[0].x), Value(pairs[0].y)] + Values(pairs[1..]) && nums[2..] == Values(pairs[1..]);
  }

  /** Executed pair by pair, a mover stops at the points of its plot. */
  lemma {:induction false} MoverTrace(dev: Device, t: Turtle, head: string, pairs: seq<Pair>, j: nat)
    requires (head == "PU" || head == "PD" || head == "PA") && PlainPairs(pairs) && j <= |pairs|
    requires Agreement.PairsInClip(dev.clip, pairs) && PlainPairs(pairs[..j]) && PlainPairs(pairs[j..])
    requires t.absolute && t.pen == dev.pen as real && t.down == PenSet(dev, head).penDown
    ensures Execution(Touched(dev, head, pairs[..j]), Growing(head, pairs, j)) ==
      Trace(Touched(dev, head, pairs), Visit(t, Values(pairs[j..])).marks, false)
    decreases |pairs| - j
  {
    hide Execute, Touched, PenSet, Here, HasCoordinates, Value;
    if j == |pairs| {
      assert pairs[..j] == pairs && pairs[j..] == [];
    } else {
      PlainSlices(pairs, j + 1);
      var token := Growing(head, pairs, j)[0];
      PairExecutes(dev, head, pairs, j, token);
      var t' := t.(x := Value(pairs[j].x), y := Value(pairs[j].y));
      assert pairs[j..][1..] == pairs[j + 1..];
      NextVisit(t, pairs[j..]);
      MoverTrace(dev, t', head, pairs, j + 1);
      assert Growing(head, pairs, j)[1..] == Growing(head, pairs, j + 1);
    }
  }

  lemma InstrTrace(c: Clip, dev: Device, t: Turtle, i: Instr)
    requires Drawn(c, i) && dev.clip == c && Agrees(dev, t)
    ensures var e := Execution(dev, Pops(i));
      !e.dead && e.dev.clip == c && e.marks == Draw(t, TextOf(i)).marks && Agrees(e.dev, Draw(t, TextOf(i)).end)
  {
    hide Execute, Draw, Touched, SameReading, HasCoordinates;
    match i {
      case Bare(text) =>
        BareFollows(dev, t, text);
        ExecutionOne(dev, text + ";");
        BareHasNone(text);
      case Mover(head, pairs) =>
        assert pairs[..0] == [] && pairs[0..] == pairs;
        NothingTouched(dev, head);
        PreparedAgrees(dev, t, head);
        MoverTrace(dev, Prepared(t, head), head, pairs, 0);
        DrawMover(t, head, pairs);
        MoverFollows(dev, t, head, pairs, |pairs|);
        assert pairs[..|pairs|] == pairs;
    }
  }

  lemma NothingTouched(dev: Device, head: string)
    ensures Touched(dev, head, []) == dev
  {
  }

  lemma BareHasNone(text: string)
    requires WellFormed(Bare(text))
    ensures !HasCoordinates(text + ";")
  {
    Agreement.BareToken(text);
  }

  /** Every point the plotter is moved to, with its pen and pen state, is the next point of the plot,
      and there are no others. */
  lemma {:induction false} TraceIsPlot(c: Clip, instrs: seq<Instr>, dev: Device, t: Turtle)
    requires AllDrawn(c, instrs) && dev.clip == c && Agrees(dev, t)
    ensures var e := Execution(dev, AllPops(instrs));
      && !e.dead && e.marks == DrawAll(t, Agreement.Texts(instrs)).marks
      && Agrees(e.dev, DrawAll(t, Agreement.Texts(instrs)).end)
    decreases |instrs|
  {
    hide Execution, Execute, Draw, Drawn, Agrees, Pops;
    if instrs == [] {
      NoTokens(dev);
    } else {
      InstrTrace(c, dev, t, instrs[0]);
      var first := Execution(dev, Pops(instrs[0]));
      TraceIsPlot(c, instrs[1..], first.dev, Draw(t, TextOf(instrs[0])).end);
      ExecutionAppend(dev, Pops(instrs[0]), AllPops(instrs[1..]));
      assert Agreement.Texts(instrs)[1..] == Agreement.Texts(instrs[1..]);
    }
  }

  lemma NoTokens(dev: Device)
    ensures Execution(dev, []) == Trace(dev, [], false)
  {
  }

  // ---- the writer's job ---------------------------------------------------------------

  lemma {:induction false} SpotsAreInClip(c: Clip, spots: seq<Spot>)
    requires WriterAccepted.SpotsInside(c, spots)
    ensures PlainPairs(SpotPairs(spots)) && Agreement.PairsInClip(c, SpotPairs(spots))
  {
    hide Value;
    SpotPairsPlain(spots);
    if spots != [] {
      SpotValues(spots[0]);
      assert WriterAccepted.SpotsInside(c, spots[1..]);
      SpotsAreInClip(c, spots[1..]);
      assert SpotPairs(spots) == [SpotPair(spots[0])] + SpotPairs(spots[1..]);
    }
  }

  lemma SelectIsRead(text: string, pen: int)
    requires text == "SP" + IntText(pen)
    ensures SameReading(text)
  {
    var d := IntText(pen);
    IntRoundTrip(pen);
    IntTextHasNoPoint(pen);
    PlainCharacters(d);
    PartsOf("SP", d);
    assert Prefix(text, 2) == "SP" && Upper("SP") == "SP" && text[2..] == d;
  }

  lemma InitIsRead(text: string)
    requires text == "IN" || text == "DF"
    ensures SameReading(text)
  {
    StripTidy(text);
    assert Upper(text) == text && Prefix(text, 2) == text;
  }

  /** What the writer emits is drawn as written. */
  lemma EmittedIsDrawn(c: Clip, i: Instr)
    requires WriterAccepted.SaneClip(c) && WriterAccepted.Emitted(c, i)
    ensures Drawn(c, i)
  {
    WriterAccepted.EmittedIsWellFormed(c, i);
    match i {
      case Bare(t) =>
        if t == "IN" || t == "DF" {
          InitIsRead(t);
        } else {
          var pen: int :| WriterAccepted.IsSelect(t, pen);
          SelectIsRead(t, pen);
        }
      case Mover(h, ps) =>
        var spots :| spots != [] && WriterAccepted.SpotsInside(c, spots) && ps == SpotPairs(spots);
        SpotsAreInClip(c, spots);
    }
  }

  /** A written job is drawn: wherever the pen was and whichever it was, with all points and the park
      position inside the clip the plotter draws exactly the rounded polylines with at least two
      points, layer by layer in ascending order, with the pen down and the layer's pen in it; and it
      ends parked with the pen up and put away. */
  lemma WrittenJobIsDrawn(layers: map<int, seq<seq<Point>>>, pens: map<int, int>, park: Spot, dev: Device)
    requires JobProgram(layers, pens, park, None).Built? && WriterAccepted.SaneClip(dev.clip)
    requires WriterAccepted.SpotInside(dev.clip, park)
    requires forall id :: id in layers ==> WriterAccepted.LinesInside(dev.clip, layers[id])
    ensures var e := Execution(dev, AllPops(JobProgram(layers, pens, park, None).value));
      && !e.dead
      && Strokes(e.marks, 0.0, []) == LayerStrokes(Order.Ascending(layers.Keys), layers, pens)
      && e.dev.x == park.x as real && e.dev.y == park.y as real && !e.dev.penDown && e.dev.pen == 0
  {
    hide Execution, Drawn, Draws;
    var c, ids := dev.clip, Order.Ascending(layers.Keys);
    var body := LayersProgram(ids, layers, pens).value;
    var job := Header(None) + body + Trailer(park);
    WriterAccepted.LayersEmitted(c, ids, layers, pens);
    WriterAccepted.JobEmitted(c, body, park);
    forall i | 0 <= i < |job| ensures Drawn(c, job[i]) { EmittedIsDrawn(c, job[i]); }
    var t := Turtle(dev.x, dev.y, true, dev.pen as real, dev.penDown);
    TraceIsPlot(c, job, dev, t);
    LayersDraw(t.(absolute := true, down := false), ids, layers, pens);
    JobDraws(t, body, LayerStrokes(ids, layers, pens), park, None);
    ReadsAll(DrawProgram(t, job).marks, LayerStrokes(ids, layers, pens));
  }
}
