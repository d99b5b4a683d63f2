/** What a payload is refused for. */
module Findings {
  // Every error of the validator's report, with the exact condition under which it is there, for
  // accepted and refused payloads alike.

  import opened Text
  import opened Numbers
  import opened Device
  import opened Hpgl
  import opened Validator
  import opened Rules
  import Soundness
  import SplitVerdict

  // ---- vocabulary ---------------------------------------------------------------------

  /** Queries, which a payload must not hold. */
  predicate Outputs(op: string) {
    || op == "OA" || op == "OC" || op == "OD" || op == "OE" || op == "OF" || op == "OH" || op == "OI" || op == "OO"
    || op == "OP" || op == "OS" || op == "OW"
  }

  predicate Known(op: string) {
    || Initialises(op) || TakesAnything(op) || TakesNumbers(op) || op == "SP" || op == "VS" || IsMover(op)
    || op == "AA" || op == "AR" || op == "CI"
  }

  lemma QueriesAreOutputs(op: string)
    ensures IsQuery(op) <==> Outputs(op)
  {
  }

  /** Instructions whose parameters have to be numbers. */
  predicate NeedsNumbers(op: string, args: string) {
    (op == "VS" && args != "") || IsMover(op) || op == "AA" || op == "AR" || op == "CI" || TakesNumbers(op)
  }

  predicate SaneNumbers(nums: Option<seq<real>>) { nums.Some? && Sane(nums.value) }

  // ---- one instruction ----------------------------------------------------------------

  /** The points an instruction is tracked to, also when it is not lawful: a mover or an arc whose
      numbers are refused leads nowhere, but `PA` and `PR` set the mode all the same. */
  function TrackedOf(t: Turtle, op: string, nums: Option<seq<real>>): Drawing {
    if IsMover(op) && !(SaneNumbers(nums) && |nums.value| % 2 == 0) then
      Drawing([], if op == "PA" then t.(absolute := true) else if op == "PR" then t.(absolute := false) else t)
    else if (op == "AA" || op == "AR") && !(SaneNumbers(nums) && |nums.value| == 3) then Drawing([], t)
    else CourseOf(t, op, nums)
  }

  /** One of the points is `(x, y)`, and it is out of reach. */
  ghost predicate LeavesReach(clip: Option<Clip>, marks: seq<Mark>, x: real, y: real) {
    clip.Some? && exists i :: 0 <= i < |marks| && marks[i].x == x && marks[i].y == y && !InReach(clip.value, marks[i])
  }

  /** What an allowed instruction other than IN and DF is refused for. */
  ghost predicate BlamesBody(clip: Option<Clip>, t: Turtle, op: string, args: string, p: Problem) {
    var nums := ParseNums(args);
    match p
    case BadParameter => op == "SP" && args != "" && (nums.None? || |nums.value| != 1)
    case PenNotWhole =>
      op == "SP" && args != "" && nums.Some? && |nums.value| == 1 && nums.value[0].Floor as real != nums.value[0]
    case BadPen =>
      && op == "SP" && args != "" && nums.Some? && |nums.value| == 1 && nums.value[0].Floor as real == nums.value[0]
      && !(0.0 <= nums.value[0] <= 6.0)
    case NonNumeric => NeedsNumbers(op, args) && nums.None?
    case Unreasonable => NeedsNumbers(op, args) && nums.Some? && !Sane(nums.value)
    case VelocityCount => op == "VS" && args != "" && SaneNumbers(nums) && |nums.value| > 2
    case VelocityRange =>
      op == "VS" && args != "" && SaneNumbers(nums) && 1 <= |nums.value| <= 2 && !(0.0 <= nums.value[0] <= 38.1)
    case VelocityPen =>
      op == "VS" && args != "" && SaneNumbers(nums) && |nums.value| == 2 && !(0.0 <= nums.value[1] <= 6.0)
    case WrongCount =>
      SaneNumbers(nums) && (((op == "AA" || op == "AR") && |nums.value| != 3) || (op == "CI" && |nums.value| != 1))
    case OddCoordinates => IsMover(op) && SaneNumbers(nums) && |nums.value| % 2 != 0
    case BeyondClip(x, y) => LeavesReach(clip, TrackedOf(t, op, nums).marks, x, y)
    case _ => false
  }

  lemma SelectBlames(clip: Option<Clip>, s: Tracker, t: Turtle, args: string, p: Problem)
    ensures p in CheckBody(clip, s, "SP", args).report.errors <==> BlamesBody(clip, t, "SP", args, p)
  {
    hide ParseNums;
  }

  lemma VelocityBlames(clip: Option<Clip>, s: Tracker, t: Turtle, args: string, p: Problem)
    ensures p in CheckVelocity(s, args).report.errors <==> BlamesBody(clip, t, "VS", args, p)
  {
    hide ParseNums, AnyUnreasonable, Sane, OffStep;
    if ParseNums(args).Some? {
      SaneMeans(ParseNums(args).value);
    }
  }

  lemma NumbersBlame(clip: Option<Clip>, s: Tracker, t: Turtle, op: string, args: string, p: Problem)
    requires op == "CI" || TakesNumbers(op)
    ensures p in CheckNumbers(s, args, if op == "CI" then Some(1) else None).report.errors <==>
      BlamesBody(clip, t, op, args, p)
  {
    hide ParseNums, AnyUnreasonable, Sane, TakesNumbers, CourseOf;
    NumericStill(clip, t, op, ParseNums(args));
    if ParseNums(args).Some? {
      SaneMeans(ParseNums(args).value);
    }
  }

  lemma NumericStill(clip: Option<Clip>, t: Turtle, op: string, nums: Option<seq<real>>)
    requires op == "CI" || TakesNumbers(op)
    ensures op != "SP" && op != "VS" && !IsMover(op) && op != "AA" && op != "AR"
    ensures op != "CI" ==> TakesNumbers(op)
    ensures forall x, y :: !LeavesReach(clip, TrackedOf(t, op, nums).marks, x, y)
  {
    hide TakesNumbers;
    if op != "CI" {
      NumericIsNoMover(op);
      NumericIsNoOther(op);
    }
  }

  lemma ThenBlames(r: Report, q: Report, p: Problem)
    ensures p in Then(r, q).errors <==> p in r.errors || p in q.errors
  {
  }

  lemma LeavesAppend(clip: Option<Clip>, a: seq<Mark>, b: seq<Mark>, x: real, y: real)
    ensures LeavesReach(clip, a + b, x, y) <==> LeavesReach(clip, a, x, y) || LeavesReach(clip, b, x, y)
  {
    if clip.Some? {
      var all := a + b;
      if LeavesReach(clip, a, x, y) {
        var i :| 0 <= i < |a| && a[i].x == x && a[i].y == y && !InReach(clip.value, a[i]);
        assert all[i] == a[i];
      }
      if LeavesReach(clip, b, x, y) {
        var i :| 0 <= i < |b| && b[i].x == x && b[i].y == y && !InReach(clip.value, b[i]);
        assert all[|a| + i] == b[i];
      }
    }
  }

  lemma NothingLeaves(clip: Option<Clip>, x: real, y: real)
    ensures !LeavesReach(clip, [], x, y)
  {
  }

  lemma ExtentBlames(clip: Option<Clip>, m: Mark, p: Problem)
    ensures p in CheckExtent(clip, m.x, m.y).errors <==> p.BeyondClip? && LeavesReach(clip, [m], p.x, p.y)
  {
    assert [m][0] == m;
  }

  lemma {:induction false} WalkBlames(clip: Option<Clip>, t: Turtle, nums: seq<real>, p: Problem)
    ensures p in WalkPairs(clip, t.absolute, t.x, t.y, nums).report.errors <==>
      p.BeyondClip? && LeavesReach(clip, Visit(t, nums).marks, p.x, p.y)
    decreases |nums|
  {
    hide CheckExtent, Then, LeavesReach;
    if |nums| >= 2 {
      var t' := StepTo(t, nums[0], nums[1]);
      var rest := WalkPairs(clip, t.absolute, t'.x, t'.y, nums[2..]);
      WalkCons(clip, t.absolute, t.x, t.y, nums, rest);
      WalkBlames(clip, t', nums[2..], p);
      ExtentBlames(clip, MarkOf(t'), p);
      ThenBlames(CheckExtent(clip, t'.x, t'.y), rest.report, p);
      if p.BeyondClip? {
        LeavesAppend(clip, [MarkOf(t')], Visit(t', nums[2..]).marks, p.x, p.y);
      }
    } else if p.BeyondClip? {
      NothingLeaves(clip, p.x, p.y);
    }
  }

  lemma NumArgsMean(args: string, count: Option<nat>, even: bool)
    ensures var nums := ParseNums(args);
      match NumArgs(args, count, even)
      case Bad(q) =>
        if nums.None? then q == NonNumeric
        else if !Sane(nums.value) then q == Unreasonable
        else if count.Some? && |nums.value| != count.value then q == WrongCount
        else even && |nums.value| % 2 != 0 && q == OddCoordinates
      case Good(vals) =>
        && nums == Some(vals) && Sane(vals)
        && (count.Some? ==> |vals| == count.value) && (even ==> |vals| % 2 == 0)
  {
    hide ParseNums, AnyUnreasonable, Sane;
    if ParseNums(args).Some? {
      SaneMeans(ParseNums(args).value);
    }
  }

  lemma MoverIsNoOther(op: string)
    requires IsMover(op)
    ensures op != "SP" && op != "VS" && op != "AA" && op != "AR" && op != "CI" && op != "HM"
  {
  }

  /** A mover whose numbers are refused is refused for that alone. */
  lemma BadMoverBlames(clip: Option<Clip>, t: Turtle, op: string, args: string, p: Problem, q: Problem)
    requires IsMover(op) && NumArgs(args, None, true) == Bad(q)
    ensures BlamesBody(clip, t, op, args, p) <==> p == q
    ensures TrackedOf(t, op, ParseNums(args)) ==
      Drawing([], if op == "PA" then t.(absolute := true) else if op == "PR" then t.(absolute := false) else t)
  {
    NumArgsMean(args, None, true);
    MoverIsNoOther(op);
    hide ParseNums, NumArgs, Sane, TakesNumbers, CourseOf, IsMover, LeavesReach;
    if p.BeyondClip? {
      NothingLeaves(clip, p.x, p.y);
    }
  }

  lemma MoverCourse(t: Turtle, op: string, vals: seq<real>)
    requires IsMover(op) && |vals| % 2 == 0
    ensures CourseOf(t, op, Some(vals)) == Visit(Prepared(t, op), vals)
  {
    MoverIsNoOther(op);
    MotionVisits(t, op, vals);
  }

  lemma GoodMoverBlames(clip: Option<Clip>, t: Turtle, op: string, args: string, p: Problem, vals: seq<real>)
    requires IsMover(op) && NumArgs(args, None, true) == Good(vals)
    ensures TrackedOf(t, op, ParseNums(args)) == Visit(Prepared(t, op), vals)
    ensures BlamesBody(clip, t, op, args, p) <==>
      p.BeyondClip? && LeavesReach(clip, Visit(Prepared(t, op), vals).marks, p.x, p.y)
  {
    NumArgsMean(args, None, true);
    MoverIsNoOther(op);
    MoverCourse(t, op, vals);
    hide ParseNums, NumArgs, Sane, TakesNumbers, CourseOf, IsMover, Visit, Prepared, LeavesReach;
  }

  lemma MotionBlames(clip: Option<Clip>, s: Tracker, t: Turtle, op: string, args: string, p: Problem)
    requires Aligned(t, s) && IsMover(op)
    ensures p in CheckMotion(clip, s, op, args).report.errors <==> BlamesBody(clip, t, op, args, p)
    ensures Aligned(TrackedOf(t, op, ParseNums(args)).end, CheckMotion(clip, s, op, args).state)
  {
    hide NumArgs, BlamesBody, TrackedOf, WalkPairs, Visit, LeavesReach;
    match NumArgs(args, None, true) {
      case Bad(q) => BadMoverBlames(clip, t, op, args, p, q);
      case Good(vals) =>
        GoodMoverBlames(clip, t, op, args, p, vals);
        WalkBlames(clip, Prepared(t, op), vals, p);
        WalkLaw(clip, Prepared(t, op), vals);
    }
  }

  lemma ArcIsNoOther(op: string)
    requires op == "AA" || op == "AR"
    ensures op != "SP" && op != "VS" && op != "CI" && op != "HM" && !IsMover(op)
  {
  }

  lemma BadArcBlames(clip: Option<Clip>, t: Turtle, op: string, args: string, p: Problem, q: Problem)
    requires (op == "AA" || op == "AR") && NumArgs(args, Some(3), false) == Bad(q)
    ensures BlamesBody(clip, t, op, args, p) <==> p == q
    ensures TrackedOf(t, op, ParseNums(args)) == Drawing([], t)
  {
    NumArgsMean(args, Some(3), false);
    ArcIsNoOther(op);
    hide ParseNums, NumArgs, Sane, TakesNumbers, CourseOf, IsMover, LeavesReach;
    if p.BeyondClip? {
      NothingLeaves(clip, p.x, p.y);
    }
  }

  lemma GoodArcBlames(clip: Option<Clip>, t: Turtle, op: string, args: string, p: Problem, vals: seq<real>)
    requires (op == "AA" || op == "AR") && NumArgs(args, Some(3), false) == Good(vals)
    ensures |vals| == 3
    ensures var at := Centre(t, op, vals);
      && TrackedOf(t, op, ParseNums(args)) == Drawing([MarkOf(at)], at)
      && (BlamesBody(clip, t, op, args, p) <==> p.BeyondClip? && LeavesReach(clip, [MarkOf(at)], p.x, p.y))
  {
    NumArgsMean(args, Some(3), false);
    ArcIsNoOther(op);
    hide ParseNums, NumArgs, Sane, TakesNumbers, IsMover, LeavesReach, Centre;
  }

  lemma ArcBlames(clip: Option<Clip>, s: Tracker, t: Turtle, op: string, args: string, p: Problem)
    requires Aligned(t, s) && (op == "AA" || op == "AR")
    ensures p in CheckArc(clip, s, op == "AR", args).report.errors <==> BlamesBody(clip, t, op, args, p)
    ensures Aligned(TrackedOf(t, op, ParseNums(args)).end, CheckArc(clip, s, op == "AR", args).state)
  {
    hide NumArgs, BlamesBody, TrackedOf, CheckExtent, LeavesReach;
    match NumArgs(args, Some(3), false) {
      case Bad(q) => BadArcBlames(clip, t, op, args, p, q);
      case Good(vals) =>
        GoodArcBlames(clip, t, op, args, p, vals);
        ExtentBlames(clip, MarkOf(Centre(t, op, vals)), p);
    }
  }

  lemma AnythingIsNoOther(op: string)
    requires TakesAnything(op)
    ensures !IsMover(op) && op != "SP" && op != "VS" && op != "AA" && op != "AR" && op != "CI" && !TakesNumbers(op)
    ensures !Initialises(op)
  {
    hide TakesNumbers;
    if TakesNumbers(op) {
      NumericIsNoMover(op);
      NumericIsNoOther(op);
    }
  }

  lemma AnythingBlames(clip: Option<Clip>, s: Tracker, t: Turtle, op: string, args: string, p: Problem)
    requires TakesAnything(op)
    ensures CheckBody(clip, s, op, args).report == CLEAN && !BlamesBody(clip, t, op, args, p)
    ensures Aligned(t, s) ==> Aligned(TrackedOf(t, op, ParseNums(args)).end, CheckBody(clip, s, op, args).state)
  {
    hide ParseNums, TakesNumbers, IsMover;
    AnythingIsNoOther(op);
  }

  lemma StillTracked(clip: Option<Clip>, s: Tracker, t: Turtle, op: string, args: string)
    requires op == "SP" || op == "VS" || op == "CI" || TakesNumbers(op)
    ensures Aligned(t, s) ==> Aligned(TrackedOf(t, op, ParseNums(args)).end, CheckBody(clip, s, op, args).state)
  {
    hide ParseNums, Sane, AnyUnreasonable, TakesNumbers, CheckBody, ParametersLawful, CourseOf;
    if op == "SP" || op == "VS" || op == "CI" {
      OtherLaw(clip, s, op, args);
    } else {
      NumericIsNoMover(op);
      NumericIsNoOther(op);
      OtherLaw(clip, s, op, args);
    }
    NoReset(op);
    StillCourse(clip, t, op, ParseNums(args));
  }

  lemma NoReset(op: string)
    requires op == "SP" || op == "VS" || op == "CI" || TakesNumbers(op)
    ensures !IsMover(op) && op != "AA" && op != "AR" && op != "HM" && !Initialises(op)
  {
    hide TakesNumbers;
    if op != "SP" && op != "VS" && op != "CI" {
      NumericIsNoMover(op);
      NumericIsNoOther(op);
    }
  }

  /** The errors of an allowed instruction, and where it is tracked to. */
  lemma BodyBlames(clip: Option<Clip>, s: Tracker, t: Turtle, op: string, args: string, p: Problem)
    requires Aligned(t, s) && Known(op) && !Initialises(op)
    ensures p in CheckBody(clip, s, op, args).report.errors <==> BlamesBody(clip, t, op, args, p)
    ensures Aligned(TrackedOf(t, op, ParseNums(args)).end, CheckBody(clip, s, op, args).state)
  {
    hide BlamesBody, TrackedOf, ParseNums, CheckMotion, CheckArc, CheckVelocity, CheckPen, CheckNumbers, Aligned,
      TakesNumbers;
    if IsMover(op) {
      MotionBodyIs(clip, s, op, args);
      MotionBlames(clip, s, t, op, args, p);
    } else if op == "AA" || op == "AR" {
      ArcBlames(clip, s, t, op, args, p);
    } else if TakesAnything(op) {
      AnythingBlames(clip, s, t, op, args, p);
    } else {
      StillTracked(clip, s, t, op, args);
      if op == "SP" {
        SelectBlames(clip, s, t, args, p);
      } else if op == "VS" {
        VelocityBlames(clip, s, t, args, p);
      } else {
        NumbersBlame(clip, s, t, op, args, p);
        NumbersBody(clip, s, op, args);
      }
    }
  }

  lemma NumbersBody(clip: Option<Clip>, s: Tracker, op: string, args: string)
    requires op == "CI" || TakesNumbers(op)
    ensures CheckBody(clip, s, op, args) == CheckNumbers(s, args, if op == "CI" then Some(1) else None)
  {
    hide TakesNumbers, CheckNumbers;
    if op != "CI" {
      NumericBody(clip, s, op, args);
    }
  }

  /** An instruction whose parameters are looked at. */
  predicate IsBody(raw: string) {
    Strip(raw) != "" && Letters(Strip(raw)) && !Outputs(OpOf(raw)) && Known(OpOf(raw)) && !Initialises(OpOf(raw))
  }

  /** What a token is refused for; `seen` says whether an instruction that is no initialisation came
      before it. */
  ghost predicate Blames(clip: Option<Clip>, seen: bool, t: Turtle, raw: string, p: Problem) {
    var op := OpOf(raw);
    if Strip(raw) == "" then false
    else if !Letters(Strip(raw)) then p == NoMnemonic
    else if Outputs(op) then p == OutputInstruction
    else if !Known(op) then p == NotInSubset
    else if Initialises(op) then p == MisplacedInit && seen
    else BlamesBody(clip, t, op, ArgsOf(raw), p)
  }

  /** Where a token is tracked to. */
  function Tracked(t: Turtle, raw: string): Turtle {
    if IsBody(raw) then TrackedOf(t, OpOf(raw), ParseNums(ArgsOf(raw))).end
    else if Letters(Strip(raw)) && Initialises(OpOf(raw)) then t.(absolute := true)
    else t
  }

  lemma KindMeans(raw: string)
    ensures match KindOf(raw)
      case Blank => Strip(raw) == ""
      case Refused(q) =>
        && Strip(raw) != ""
        && q == (if !Letters(Strip(raw)) then NoMnemonic
                 else if Outputs(OpOf(raw)) then OutputInstruction else NotInSubset)
        && (Letters(Strip(raw)) ==> Outputs(OpOf(raw)) || !Known(OpOf(raw)))
      case Init => Strip(raw) != "" && Letters(Strip(raw)) && !Outputs(OpOf(raw)) && Initialises(OpOf(raw))
      case Body(op, args) => IsBody(raw) && op == OpOf(raw) && args == ArgsOf(raw)
  {
    hide IsAllowed, IsQuery, Outputs, OpOf, ArgsOf, TakesNumbers, TakesAnything;
    QueriesAreOutputs(OpOf(raw));
    AllowedMeans(OpOf(raw));
  }

  lemma OutputIsNoInit(op: string)
    requires Outputs(op)
    ensures !Initialises(op)
  {
  }

  lemma KindBlames(clip: Option<Clip>, s: Tracker, t: Turtle, raw: string, p: Problem)
    requires Aligned(t, s)
    ensures var r := CheckKind(clip, s, KindOf(raw));
      && (p in r.report.errors <==> Blames(clip, s.seenBody, t, raw, p))
      && Aligned(Tracked(t, raw), r.state) && (r.state.seenBody <==> s.seenBody || IsBody(raw))
  {
    hide KindOf, OpOf, ArgsOf, Outputs, Known, CheckBody, BlamesBody, TrackedOf, Letters, ParseNums, Initialises;
    KindMeans(raw);
    match KindOf(raw) {
      case Blank => BlankHasNoLetters(raw);
      case Refused(_) => RefusedIsNoInit(raw);
      case Init => InitIsKnown(OpOf(raw));
      case Body(op, args) =>
        BodyBlames(clip, s.(seenBody := true), t, op, args, p);
        ThenBlames(if IsIneffective(op) then Note(Ineffective) else CLEAN,
                   CheckBody(clip, s.(seenBody := true), op, args).report, p);
    }
  }

  lemma BlankHasNoLetters(raw: string)
    ensures Strip(raw) == "" ==> !Letters(Strip(raw))
  {
  }

  lemma RefusedIsNoInit(raw: string)
    requires KindOf(raw).Refused?
    ensures !IsBody(raw) && !(Letters(Strip(raw)) && Initialises(OpOf(raw)))
  {
    KindMeans(raw);
    hide KindOf, OpOf, ArgsOf, Outputs, Known, Letters, Initialises;
    if Letters(Strip(raw)) && Initialises(OpOf(raw)) {
      InitIsKnown(OpOf(raw));
      if Outputs(OpOf(raw)) {
        OutputIsNoInit(OpOf(raw));
      }
    }
  }

  lemma InitIsKnown(op: string)
    requires Initialises(op)
    ensures Known(op)
  {
  }

  // ---- the whole payload --------------------------------------------------------------

  /** Some token is refused for this. */
  ghost predicate Blamed(clip: Option<Clip>, seen: bool, t: Turtle, tokens: seq<string>, p: Problem)
    decreases |tokens|
  {
    tokens != [] &&
    (Blames(clip, seen, t, tokens[0], p)
     || Blamed(clip, seen || IsBody(tokens[0]), Tracked(t, tokens[0]), tokens[1..], p))
  }

  lemma {:induction false} TokensBlamed(clip: Option<Clip>, s: Tracker, t: Turtle, tokens: seq<string>, p: Problem)
    requires Aligned(t, s)
    ensures p in CheckAll(clip, s, Kinds(tokens)).report.errors <==> Blamed(clip, s.seenBody, t, tokens, p)
    decreases |tokens|
  {
    hide CheckKind, KindOf, Blames, Tracked, IsBody, Aligned, Then;
    if tokens != [] {
      var raw := tokens[0];
      var first := CheckKind(clip, s, KindOf(raw));
      KindBlames(clip, s, t, raw, p);
      assert Kinds(tokens)[1..] == Kinds(tokens[1..]);
      ThenBlames(first.report, CheckAll(clip, first.state, Kinds(tokens[1..])).report, p);
      TokensBlamed(clip, first.state, Tracked(t, raw), tokens[1..], p);
    }
  }

  /** What a payload that is short enough and holds no forbidden character is refused for: something
      behind the last terminator, and whatever one of its tokens is refused for; nothing else. */
  lemma ReportedExactly(text: string, clip: Option<Clip>, p: Problem)
    requires |text| <= 5242880 && forall i :: 0 <= i < |text| ==> !IsForbidden(text[i])
    ensures p in Validation(text, clip).errors <==>
      (p == Unterminated && Strip(Tail(text)) != "") || Blamed(clip, false, HOME, Tokens(text), p)
  {
    hide CheckAll, Kinds, Tokens, Tail, Blamed, Strip;
    SplitVerdict.ControlsMean(text, 0);
    SplitVerdict.ValidationParts(text, clip);
    TokensBlamed(clip, START, HOME, Tokens(text), p);
  }
}
