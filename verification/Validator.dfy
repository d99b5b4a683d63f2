/** The gate in front of the serial port: the payload validator.  Size, control characters and
    instructions are looked at in that order; every problem is an error and every oddity a warning. */
module Validator {
  import opened Protocol
  import opened Text
  import opened Numbers
  import opened Device
  import opened Hpgl

  const MAX_JOB_BYTES: nat := 5 * 1024 * 1024
  const CLIP_TOLERANCE: real := 200.0
  const ABSURD: real := 10000000.0
  const PENS: real := 6.0

  datatype Problem =
    | TooLarge | Escape(at: nat) | Control(at: nat) | Unterminated | NoMnemonic | OutputInstruction | NotInSubset
    | MisplacedInit | BadPen | BadParameter | PenNotWhole | VelocityCount | VelocityRange | VelocityPen
    | NonNumeric | Unreasonable | WrongCount | OddCoordinates | BeyondClip(x: real, y: real)

  datatype Advice = Ineffective | VelocityOffStep | NearEdge(x: real, y: real) | EndsPenDown | EndsPenHeld

  datatype Report = Report(errors: seq<Problem>, warnings: seq<Advice>)

  const CLEAN := Report([], [])

  function Then(a: Report, b: Report): Report { Report(a.errors + b.errors, a.warnings + b.warnings) }

  function Fail(p: Problem): Report { Report([p], []) }

  function Note(a: Advice): Report { Report([], [a]) }

  /** The validator's running state. */
  datatype Tracker = Tracker(absolute: bool, x: real, y: real, pen: real, penDown: bool, seenBody: bool)

  const START := Tracker(true, 0.0, 0.0, 0.0, false, false)

  datatype Checked = Checked(state: Tracker, report: Report)

  // ---- vocabulary ---------------------------------------------------------------------

  predicate IsQuery(op: string) { IsOutput(op) || op == "OD" || op == "OF" || op == "OW" }

  /** Instructions of the safe subset that only have their numbers looked at. */
  const NUMERIC_ONLY := "ASIMLTCTDRSISRCPIWSCIPROTLXTYTPT"

  /** Membership in a list of two-letter mnemonics. */
  predicate Listed(op: string, table: string)
    decreases |table|
  {
    |table| >= 2 && (table[..2] == op || Listed(op, table[2..]))
  }

  predicate IsInit(op: string) { op == "IN" || op == "DF" }

  predicate IsFreestyle(op: string) { op == "LB" || op == "DT" || op == "SM" }

  predicate IsIneffective(op: string) { op == "FS" || op == "PW" }

  predicate IsAllowed(op: string) {
    || IsInit(op) || op == "SP" || op == "VS" || IsMover(op) || IsFreestyle(op) || IsIneffective(op)
    || op == "AA" || op == "AR" || op == "CI" || op == "HM" || Listed(op, NUMERIC_ONLY)
  }

  predicate HasMnemonic(instr: string) { |instr| >= 2 && IsAlpha(instr[0]) && IsAlpha(instr[1]) }

  // ---- numbers ------------------------------------------------------------------------

  function Abs(v: real): real { if v < 0.0 then -v else v }

  predicate AnyUnreasonable(nums: seq<real>) { exists i :: 0 <= i < |nums| && Abs(nums[i]) > ABSURD }

  datatype Numeric = Good(vals: seq<real>) | Bad(problem: Problem)

  function NumArgs(blob: string, count: Option<nat>, even: bool): Numeric {
    match ParseNums(blob)
    case None => Bad(NonNumeric)
    case Some(vals) =>
      if AnyUnreasonable(vals) then Bad(Unreasonable)
      else if count.Some? && |vals| != count.value then Bad(WrongCount)
      else if even && |vals| % 2 != 0 then Bad(OddCoordinates)
      else Good(vals)
  }

  predicate IsWhole(v: real) { v.Floor as real == v }

  /** A pen parameter: a whole number, or -1 and the problem. */
  function PenArg(blob: string): (real, Report) {
    match ParseNums(blob)
    case None => (-1.0, Fail(BadParameter))
    case Some(vals) =>
      if |vals| != 1 then (-1.0, Fail(BadParameter))
      else if IsWhole(vals[0]) then (vals[0], CLEAN)
      else (-1.0, Fail(PenNotWhole))
  }

  /** More than a millionth of a step away from the velocity grid. */
  predicate OffStep(v: real) {
    var q := v / VELOCITY_STEP;
    Abs(q - (q + 0.5).Floor as real) > 0.000001
  }

  // ---- extents ------------------------------------------------------------------------

  function Max(a: real, b: real): real { if a < b then b else a }

  /** How far a point lies outside the clip; not positive inside it. */
  function Overshoot(c: Clip, x: real, y: real): real {
    Max(Max(c.xmin as real - x, x - c.xmax as real), Max(c.ymin as real - y, y - c.ymax as real))
  }

  function CheckExtent(clip: Option<Clip>, x: real, y: real): Report {
    match clip
    case None => CLEAN
    case Some(c) =>
      var over := Overshoot(c, x, y);
      if over > CLIP_TOLERANCE then Fail(BeyondClip(x, y))
      else if over > 0.0 then Note(NearEdge(x, y))
      else CLEAN
  }

  datatype Walked = Walked(x: real, y: real, report: Report)

  /** Where a coordinate leads on one axis. */
  function Stop(absolute: bool, at: real, num: real): real { if absolute then num else at + num }

  /** Track coordinate pairs and look at each point reached. */
  function WalkPairs(clip: Option<Clip>, absolute: bool, x: real, y: real, nums: seq<real>): Walked
    decreases |nums|
  {
    if |nums| < 2 then Walked(x, y, CLEAN)
    else
      var nx, ny := Stop(absolute, x, nums[0]), Stop(absolute, y, nums[1]);
      var rest := WalkPairs(clip, absolute, nx, ny, nums[2..]);
      Walked(rest.x, rest.y, Then(CheckExtent(clip, nx, ny), rest.report))
  }

  lemma WalkCons(clip: Option<Clip>, absolute: bool, x: real, y: real, nums: seq<real>, rest: Walked)
    requires |nums| >= 2
    requires rest == WalkPairs(clip, absolute, Stop(absolute, x, nums[0]), Stop(absolute, y, nums[1]), nums[2..])
    ensures WalkPairs(clip, absolute, x, y, nums) == Walked(rest.x, rest.y,
      Then(CheckExtent(clip, Stop(absolute, x, nums[0]), Stop(absolute, y, nums[1])), rest.report))
  {
  }

  // ---- instructions -------------------------------------------------------------------

  function CheckPen(s: Tracker, args: string): Checked {
    if args == "" then Checked(s, CLEAN)
    else
      var (pen, bad) := PenArg(args);
      if bad != CLEAN then Checked(s.(pen := pen), bad)
      else
        Checked(s.(pen := pen, penDown := if pen == 0.0 then false else s.penDown),
                if 0.0 <= pen <= PENS then CLEAN else Fail(BadPen))
  }

  function CheckVelocity(s: Tracker, args: string): Checked {
    if args == "" then Checked(s, CLEAN)
    else
      match NumArgs(args, None, false)
      case Bad(p) => Checked(s, Fail(p))
      case Good(vals) =>
        if vals == [] then Checked(s, CLEAN)
        else if |vals| > 2 then Checked(s, Fail(VelocityCount))
        else
          var v := vals[0];
          var speed :=
            if !(0.0 <= v <= VELOCITY_MAX) then Fail(VelocityRange)
            else if OffStep(v) && v != 0.0 then Note(VelocityOffStep)
            else CLEAN;
          if |vals| == 2
          then Checked(s.(pen := vals[1]), Then(speed, if 0.0 <= vals[1] <= PENS then CLEAN else Fail(VelocityPen)))
          else Checked(s, speed)
  }

  function Moded(s: Tracker, op: string): Tracker {
    if op == "PA" then s.(absolute := true) else if op == "PR" then s.(absolute := false) else s
  }

  function Penned(s: Tracker, op: string): Tracker {
    if op == "PD" then s.(penDown := true) else if op == "PU" then s.(penDown := false) else s
  }

  function CheckMotion(clip: Option<Clip>, s: Tracker, op: string, args: string): Checked {
    match NumArgs(args, None, true)
    case Bad(p) => Checked(Moded(s, op), Fail(p))
    case Good(nums) =>
      var w := WalkPairs(clip, Moded(s, op).absolute, s.x, s.y, nums);
      Checked(Penned(Moded(s, op).(x := w.x, y := w.y), op), w.report)
  }

  function CheckArc(clip: Option<Clip>, s: Tracker, relative: bool, args: string): Checked {
    match NumArgs(args, Some(3), false)
    case Bad(p) => Checked(s, Fail(p))
    case Good(nums) =>
      var x := if relative then s.x + nums[0] else nums[0];
      var y := if relative then s.y + nums[1] else nums[1];
      Checked(s.(x := x, y := y), CheckExtent(clip, x, y))
  }

  function CheckNumbers(s: Tracker, args: string, count: Option<nat>): Checked {
    match NumArgs(args, count, false)
    case Bad(p) => Checked(s, Fail(p))
    case Good(_) => Checked(s, CLEAN)
  }

  /** An allowed instruction other than IN and DF. */
  function CheckBody(clip: Option<Clip>, s: Tracker, op: string, args: string): (r: Checked)
    ensures r.state.seenBody == s.seenBody
  {
    if op == "SP" then CheckPen(s, args)
    else if op == "VS" then CheckVelocity(s, args)
    else if IsFreestyle(op) then Checked(s, CLEAN)
    else if IsMover(op) then CheckMotion(clip, s, op, args)
    else if op == "AA" || op == "AR" then CheckArc(clip, s, op == "AR", args)
    else if op == "CI" then CheckNumbers(s, args, Some(1))
    else if op == "HM" then Checked(s.(x := 0.0, y := 0.0, penDown := false), CLEAN)
    else CheckNumbers(s, args, None)
  }

  /** What an instruction's text amounts to before its parameters are looked at. */
  datatype Kind = Blank | Refused(problem: Problem) | Init | Body(op: string, args: string)

  function KindOf(raw: string): Kind {
    var instr := Strip(raw);
    var op := OpOf(raw);
    if instr == "" then Blank
    else if !HasMnemonic(instr) then Refused(NoMnemonic)
    else if IsQuery(op) then Refused(OutputInstruction)
    else if !IsAllowed(op) then Refused(NotInSubset)
    else if IsInit(op) then Init
    else Body(op, ArgsOf(raw))
  }

  function CheckKind(clip: Option<Clip>, s: Tracker, kind: Kind): Checked {
    match kind
    case Blank => Checked(s, CLEAN)
    case Refused(problem) => Checked(s, Fail(problem))
    case Init => Checked(s.(absolute := true), if s.seenBody then Fail(MisplacedInit) else CLEAN)
    case Body(op, args) =>
      var body := CheckBody(clip, s.(seenBody := true), op, args);
      Checked(body.state, Then(if IsIneffective(op) then Note(Ineffective) else CLEAN, body.report))
  }

  function Kinds(tokens: seq<string>): (r: seq<Kind>)
    ensures |r| == |tokens|
  {
    if tokens == [] then [] else [KindOf(tokens[0])] + Kinds(tokens[1..])
  }

  lemma {:induction false} KindsAt(tokens: seq<string>, i: nat)
    requires i < |tokens|
    ensures Kinds(tokens)[i] == KindOf(tokens[i])
  {
    if i > 0 {
      KindsAt(tokens[1..], i - 1);
    }
  }

  /** All instructions in order. */
  function CheckAll(clip: Option<Clip>, s: Tracker, kinds: seq<Kind>): Checked
    decreases |kinds|
  {
    if kinds == [] then Checked(s, CLEAN)
    else
      var first := CheckKind(clip, s, kinds[0]);
      var rest := CheckAll(clip, first.state, kinds[1..]);
      Checked(rest.state, Then(first.report, rest.report))
  }

  // ---- the whole payload --------------------------------------------------------------

  function ControlErrors(text: string, at: nat): seq<Problem>
    requires at <= |text|
    decreases |text| - at
  {
    if at == |text| then []
    else
      var c := text[at];
      var rest := ControlErrors(text, at + 1);
      if c == '\U{1b}' then [Escape(at)] + rest
      else if c < ' ' && c != '\t' && c != '\n' && c != '\r' then [Control(at)] + rest
      else rest
  }

  function TailErrors(text: string): seq<Problem> {
    if Strip(Tail(text)) != "" then [Unterminated] else []
  }

  function Ending(s: Tracker): seq<Advice> {
    (if s.penDown then [EndsPenDown] else []) + (if s.pen != 0.0 then [EndsPenHeld] else [])
  }

  function Validation(text: string, clip: Option<Clip>): Report {
    if |text| > MAX_JOB_BYTES then Fail(TooLarge)
    else if ControlErrors(text, 0) != [] then Report(ControlErrors(text, 0), [])
    else
      var run := CheckAll(clip, START, Kinds(Tokens(text)));
      Then(Report(TailErrors(text), []), Then(run.report, Report([], Ending(run.state))))
  }

  predicate Ok(text: string, clip: Option<Clip>) { Validation(text, clip).errors == [] }

  // ---- the token loop -----------------------------------------------------------------

  lemma ThenAssociates(a: Report, b: Report, c: Report)
    ensures Then(Then(a, b), c) == Then(a, Then(b, c)) && Then(CLEAN, a) == a && Then(a, CLEAN) == a
  {
  }

  lemma MotionAllowed(op: string)
    requires IsMover(op)
    ensures !IsQuery(op) && IsAllowed(op) && !IsInit(op) && !IsIneffective(op) && !IsFreestyle(op)
    ensures op != "SP" && op != "VS"
  {
  }

  lemma MotionBody(clip: Option<Clip>, s: Tracker, op: string, args: string)
    requires IsMover(op)
    ensures CheckKind(clip, s, Body(op, args)) == CheckMotion(clip, s.(seenBody := true), op, args)
  {
    MotionAllowed(op);
    ThenAssociates(CheckMotion(clip, s.(seenBody := true), op, args).report, CLEAN, CLEAN);
  }

  /** Both loops of the scan over characters and the early return are in `ControlErrors`. */
  method ScanControls(text: string) returns (errors: seq<Problem>)
    ensures errors == ControlErrors(text, 0)
  {
    errors := [];
    var i := 0;
    while i < |text|
      invariant 0 <= i <= |text| && ControlErrors(text, 0) == errors + ControlErrors(text, i)
    {
      var c := text[i];
      if c == '\U{1b}' {
        errors := errors + [Escape(i)];
      } else if c < ' ' && c != '\t' && c != '\n' && c != '\r' {
        errors := errors + [Control(i)];
      }
      i := i + 1;
    }
  }

  /** What is reported so far, and what the rest of the walk will add, make up the whole walk. */
  predicate Ahead(before: Report, all: Walked, report: Report, rest: Walked) {
    all.x == rest.x && all.y == rest.y && Then(before, all.report) == Then(report, rest.report)
  }

  lemma AheadNext(before: Report, all: Walked, report: Report, here: Report, tail: Walked)
    requires Ahead(before, all, report, Walked(tail.x, tail.y, Then(here, tail.report)))
    ensures Ahead(before, all, Then(report, here), tail)
  {
    ThenAssociates(report, here, tail.report);
  }

  method TrackPairs(clip: Option<Clip>, absolute: bool, x0: real, y0: real, coords: seq<real>, before: Report)
    returns (x: real, y: real, report: Report)
    requires |coords| % 2 == 0
    ensures var w := WalkPairs(clip, absolute, x0, y0, coords);
      x == w.x && y == w.y && report == Then(before, w.report)
  {
    x, y, report := x0, y0, before;
    ghost var all := WalkPairs(clip, absolute, x0, y0, coords);
    var j := 0;
    assert coords[0..] == coords;
    while j < |coords|
      invariant 0 <= j <= |coords| && j % 2 == 0
      invariant Ahead(before, all, report, WalkPairs(clip, absolute, x, y, coords[j..]))
    {
      ghost var left := coords[j..];
      assert left[0] == coords[j] && left[1] == coords[j + 1] && left[2..] == coords[j + 2..];
      var nx, ny := coords[j], coords[j + 1];
      if !absolute {
        nx, ny := x + coords[j], y + coords[j + 1];
      }
      ghost var tail := WalkPairs(clip, absolute, nx, ny, coords[j + 2..]);
      WalkCons(clip, absolute, x, y, left, tail);
      AheadNext(before, all, report, CheckExtent(clip, nx, ny), tail);
      x, y := nx, ny;
      report := Then(report, CheckExtent(clip, nx, ny));
      j := j + 2;
    }
    ThenAssociates(report, CLEAN, CLEAN);
  }

  method Classify(tokens: seq<string>, i: nat) returns (kind: Kind)
    requires i < |tokens|
    ensures kind == Kinds(tokens)[i]
  {
    KindsAt(tokens, i);
    kind := KindOf(tokens[i]);
  }

  /** The original's single loop over instructions, one variable per tracked quantity. */
  method ScanTokens(tokens: seq<string>, clip: Option<Clip>)
    returns (absolute: bool, x: real, y: real, pen: real, penDown: bool, seenBody: bool, report: Report)
    ensures CheckAll(clip, START, Kinds(tokens)) == Checked(Tracker(absolute, x, y, pen, penDown, seenBody), report)
  {
    ghost var kinds := Kinds(tokens);
    absolute, x, y, pen, penDown, seenBody := true, 0.0, 0.0, 0.0, false, false;
    report := CLEAN;
    var i := 0;
    while i < |tokens|
      invariant 0 <= i <= |tokens|
      invariant var all := CheckAll(clip, START, kinds);
        var rest := CheckAll(clip, Tracker(absolute, x, y, pen, penDown, seenBody), kinds[i..]);
        all.state == rest.state && all.report == Then(report, rest.report)
    {
      ghost var before := report;
      var kind := Classify(tokens, i);
      ghost var done := CheckKind(clip, Tracker(absolute, x, y, pen, penDown, seenBody), kind);
      assert kinds[i..][0] == kind && kinds[i..][1..] == kinds[i + 1..];
      absolute, x, y, pen, penDown, seenBody, report :=
        ValidateInstruction(clip, kind, absolute, x, y, pen, penDown, seenBody, report);
      ThenAssociates(before, done.report, CheckAll(clip, done.state, kinds[i + 1..]).report);
      i := i + 1;
    }
    ThenAssociates(report, CLEAN, CLEAN);
  }

  method ValidateHpgl(text: string, clip: Option<Clip>) returns (report: Report)
    ensures report == Validation(text, clip)
  {
    if |text| > MAX_JOB_BYTES {
      return Fail(TooLarge);
    }
    var control := ScanControls(text);
    if control != [] {
      return Report(control, []);
    }
    var absolute, x, y, pen, penDown, seenBody, body := ScanTokens(Tokens(text), clip);
    var warnings := body.warnings;
    if penDown {
      warnings := warnings + [EndsPenDown];
    }
    if pen != 0.0 {
      warnings := warnings + [EndsPenHeld];
    }
    report := Report(TailErrors(text) + body.errors, warnings);
    assert warnings == body.warnings + Ending(Tracker(absolute, x, y, pen, penDown, seenBody));
    assert body.errors + [] == body.errors && [] + warnings == warnings;
  }

  /** The loop body. */
  method ValidateInstruction(clip: Option<Clip>, kind: Kind, absolute0: bool, x0: real, y0: real, pen0: real,
                             penDown0: bool, seenBody0: bool, report0: Report)
    returns (absolute: bool, x: real, y: real, pen: real, penDown: bool, seenBody: bool, report: Report)
    ensures var done := CheckKind(clip, Tracker(absolute0, x0, y0, pen0, penDown0, seenBody0), kind);
      && Tracker(absolute, x, y, pen, penDown, seenBody) == done.state
      && report == Then(report0, done.report)
  {
    absolute, x, y, pen, penDown, seenBody := absolute0, x0, y0, pen0, penDown0, seenBody0;
    report := report0;
    ThenAssociates(report0, CLEAN, CLEAN);
    match kind {
      case Blank =>
      case Refused(problem) => report := Then(report, Fail(problem));
      case Init =>
        if seenBody {
          report := Then(report, Fail(MisplacedInit));
        }
        absolute := true;
      case Body(op, args) =>
        if IsIneffective(op) {
          report := Then(report, Note(Ineffective));
        }
        seenBody := true;
        ghost var body := CheckBody(clip, Tracker(absolute, x, y, pen, penDown, true), op, args);
        ThenAssociates(report0, if IsIneffective(op) then Note(Ineffective) else CLEAN, body.report);
        ThenAssociates(body.report, CLEAN, CLEAN);
        absolute, x, y, pen, penDown, report := ValidateBody(clip, op, args, absolute, x, y, pen, penDown, report);
    }
  }

  /** The branches for allowed instructions that are not IN or DF. */
  method ValidateBody(clip: Option<Clip>, op: string, args: string, absolute0: bool, x0: real, y0: real,
                      pen0: real, penDown0: bool, report0: Report)
    returns (absolute: bool, x: real, y: real, pen: real, penDown: bool, report: Report)
    ensures var done := CheckBody(clip, Tracker(absolute0, x0, y0, pen0, penDown0, true), op, args);
      && Tracker(absolute, x, y, pen, penDown, true) == done.state
      && report == Then(report0, done.report)
  {
    absolute, x, y, pen, penDown := absolute0, x0, y0, pen0, penDown0;
    report := report0;
    ThenAssociates(report0, CLEAN, CLEAN);
    if op == "SP" {
      pen, penDown, report := ValidatePen(args, pen, penDown, report);
    } else if op == "VS" {
      pen, report := ValidateVelocity(args, pen, report);
    } else if IsFreestyle(op) {
    } else if IsMover(op) {
      absolute, x, y, penDown, report := ValidateMotion(clip, op, args, absolute, x, y, penDown, report);
    } else if op == "AA" || op == "AR" {
      x, y, report := ValidateArc(clip, op == "AR", args, x, y, report);
    } else if op == "HM" {
      x, y, penDown := 0.0, 0.0, false;
    } else {
      match NumArgs(args, if op == "CI" then Some(1) else None, false) {
        case Bad(p) => report := Then(report, Fail(p));
        case Good(_) =>
      }
    }
  }

  method ValidateArc(clip: Option<Clip>, relative: bool, args: string, x0: real, y0: real, report0: Report)
    returns (x: real, y: real, report: Report)
    ensures forall s: Tracker :: s.x == x0 && s.y == y0 ==>
      var done := CheckArc(clip, s, relative, args);
      done.state == s.(x := x, y := y) && report == Then(report0, done.report)
  {
    x, y, report := x0, y0, report0;
    match NumArgs(args, Some(3), false) {
      case Bad(p) => report := Then(report, Fail(p));
      case Good(coords) =>
        x, y := if relative then x + coords[0] else coords[0], if relative then y + coords[1] else coords[1];
        report := Then(report, CheckExtent(clip, x, y));
    }
  }

  method ValidatePen(args: string, pen0: real, penDown0: bool, report0: Report)
    returns (pen: real, penDown: bool, report: Report)
    ensures forall s: Tracker :: s.pen == pen0 && s.penDown == penDown0 ==>
      CheckPen(s, args).state == s.(pen := pen, penDown := penDown) && report == Then(report0, CheckPen(s, args).report)
  {
    pen, penDown, report := pen0, penDown0, report0;
    if args != "" {
      var (p, bad) := PenArg(args);
      pen := p;
      report := Then(report, bad);
      if bad == CLEAN {
        if !(0.0 <= pen <= PENS) {
          report := Then(report, Fail(BadPen));
        }
        if pen == 0.0 {
          penDown := false;
        }
      }
    }
  }

  method ValidateVelocity(args: string, pen0: real, report0: Report) returns (pen: real, report: Report)
    ensures forall s: Tracker :: s.pen == pen0 ==>
      CheckVelocity(s, args).state == s.(pen := pen) && report == Then(report0, CheckVelocity(s, args).report)
  {
    pen, report := pen0, report0;
    if args == "" {
      return;
    }
    match NumArgs(args, None, false) {
      case Bad(p) => report := Then(report, Fail(p));
      case Good(vals) =>
        if |vals| > 2 {
          report := Then(report, Fail(VelocityCount));
        } else if vals != [] {
          var v := vals[0];
          if !(0.0 <= v <= VELOCITY_MAX) {
            report := Then(report, Fail(VelocityRange));
          } else if OffStep(v) && v != 0.0 {
            report := Then(report, Note(VelocityOffStep));
          }
          if |vals| == 2 {
            pen := vals[1];
            if !(0.0 <= pen <= PENS) {
              report := Then(report, Fail(VelocityPen));
            }
          }
        }
    }
  }

  method ValidateMotion(clip: Option<Clip>, op: string, args: string, absolute0: bool, x0: real, y0: real,
                        penDown0: bool, report0: Report)
    returns (absolute: bool, x: real, y: real, penDown: bool, report: Report)
    ensures forall s: Tracker :: s.absolute == absolute0 && s.x == x0 && s.y == y0 && s.penDown == penDown0 ==>
      var done := CheckMotion(clip, s, op, args);
      done.state == s.(absolute := absolute, x := x, y := y, penDown := penDown) && report == Then(report0, done.report)
  {
    absolute, x, y, penDown, report := absolute0, x0, y0, penDown0, report0;
    if op == "PA" || op == "PR" {
      absolute := op == "PA";
    }
    match NumArgs(args, None, true) {
      case Bad(p) => report := Then(report, Fail(p));
      case Good(coords) =>
        x, y, report := TrackPairs(clip, absolute, x, y, coords, report);
        if op == "PD" {
          penDown := true;
        } else if op == "PU" {
          penDown := false;
        }
    }
  }
}
