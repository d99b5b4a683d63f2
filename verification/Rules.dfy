/** When a payload is accepted. */
module Rules {
  // The validator's verdict, rule by rule and token by token: which instructions are allowed with
  // which parameters, where the pen may be sent, and which oddities are noted.

  import opened Text
  import opened Numbers
  import opened Device
  import opened Hpgl
  import opened Validator
  import Soundness
  import SplitVerdict

  // ---- one instruction ----------------------------------------------------------------

  /** All numbers are at most ten million in size. */
  predicate Sane(vals: seq<real>) {
    forall i :: 0 <= i < |vals| ==> -10000000.0 <= vals[i] <= 10000000.0
  }

  predicate Initialises(op: string) { op == "IN" || op == "DF" }

  /** Labels and the home move, whose text is not looked at. */
  predicate TakesAnything(op: string) { op == "LB" || op == "DT" || op == "SM" || op == "HM" }

  /** Instructions that only need numbers. */
  predicate TakesNumbers(op: string) {
    || op == "AS" || op == "IM" || op == "LT" || op == "CT" || op == "DR" || op == "SI" || op == "SR" || op == "CP"
    || op == "IW" || op == "SC" || op == "IP" || op == "RO" || op == "TL" || op == "XT" || op == "YT" || op == "PT"
    || op == "FS" || op == "PW"
  }

  /** The pens there are. */
  predicate PenNumber(v: real) { 0.0 <= v <= 6.0 }

  /** The numbers an instruction may have. */
  predicate NumbersLawful(op: string, vals: seq<real>) {
    if op == "VS" then
      |vals| <= 2 && (|vals| >= 1 ==> 0.0 <= vals[0] <= 38.1) && (|vals| == 2 ==> PenNumber(vals[1]))
    else if op == "PU" || op == "PD" || op == "PA" || op == "PR" then |vals| % 2 == 0
    else if op == "AA" || op == "AR" then |vals| == 3
    else if op == "CI" then |vals| == 1
    else TakesNumbers(op)
  }

  /** A whole pen number, or nothing. */
  predicate SelectionLawful(args: string) {
    args == "" ||
    match ParseNums(args)
    case None => false
    case Some(vals) => |vals| == 1 && vals[0].Floor as real == vals[0] && PenNumber(vals[0])
  }

  predicate ParametersLawful(op: string, args: string) {
    if Initialises(op) || TakesAnything(op) then true
    else if op == "SP" then SelectionLawful(args)
    else
      match ParseNums(args)
      case None => false
      case Some(vals) => Sane(vals) && NumbersLawful(op, vals)
  }

  predicate Letters(instr: string) { |instr| >= 2 && IsAlpha(instr[0]) && IsAlpha(instr[1]) }

  /** A token is blank, or two letters with the parameters they may have. */
  predicate TokenLawful(raw: string) {
    Strip(raw) == "" || (Letters(Strip(raw)) && ParametersLawful(OpOf(raw), ArgsOf(raw)))
  }

  predicate Resets(raw: string) { Initialises(OpOf(raw)) }

  // ---- the mnemonics ------------------------------------------------------------------

  lemma ListedStep(op: string, first: string, rest: string)
    requires |first| == 2
    ensures Listed(op, first + rest) <==> op == first || Listed(op, rest)
  {
    assert (first + rest)[..2] == first && (first + rest)[2..] == rest;
  }

  lemma ListedSecondHalf(op: string)
    ensures Listed(op, "IWSCIPROTLXTYTPT") <==>
      op == "IW" || op == "SC" || op == "IP" || op == "RO" || op == "TL" || op == "XT" || op == "YT" || op == "PT"
  {
    hide Listed;
    assert "IWSCIPROTLXTYTPT" == "IW" + ("SC" + ("IP" + ("RO" + ("TL" + ("XT" + ("YT" + ("PT" + "")))))));
    ListedStep(op, "PT", "");
    ListedStep(op, "YT", "PT" + "");
    ListedStep(op, "XT", "YT" + ("PT" + ""));
    ListedStep(op, "TL", "XT" + ("YT" + ("PT" + "")));
    ListedStep(op, "RO", "TL" + ("XT" + ("YT" + ("PT" + ""))));
    ListedStep(op, "IP", "RO" + ("TL" + ("XT" + ("YT" + ("PT" + "")))));
    ListedStep(op, "SC", "IP" + ("RO" + ("TL" + ("XT" + ("YT" + ("PT" + ""))))));
    ListedStep(op, "IW", "SC" + ("IP" + ("RO" + ("TL" + ("XT" + ("YT" + ("PT" + "")))))));
    NothingListed(op);
  }

  lemma NothingListed(op: string)
    ensures !Listed(op, "")
  {
  }

  lemma ListedMeans(op: string)
    ensures Listed(op, NUMERIC_ONLY) <==> TakesNumbers(op) && op != "FS" && op != "PW"
  {
    hide Listed;
    var rest := "IWSCIPROTLXTYTPT";
    assert NUMERIC_ONLY == "AS" + ("IM" + ("LT" + ("CT" + ("DR" + ("SI" + ("SR" + ("CP" + rest)))))));
    ListedStep(op, "CP", rest);
    ListedStep(op, "SR", "CP" + rest);
    ListedStep(op, "SI", "SR" + ("CP" + rest));
    ListedStep(op, "DR", "SI" + ("SR" + ("CP" + rest)));
    ListedStep(op, "CT", "DR" + ("SI" + ("SR" + ("CP" + rest))));
    ListedStep(op, "LT", "CT" + ("DR" + ("SI" + ("SR" + ("CP" + rest)))));
    ListedStep(op, "IM", "LT" + ("CT" + ("DR" + ("SI" + ("SR" + ("CP" + rest))))));
    ListedStep(op, "AS", "IM" + ("LT" + ("CT" + ("DR" + ("SI" + ("SR" + ("CP" + rest)))))));
    ListedSecondHalf(op);
  }

  lemma AllowedMeans(op: string)
    ensures IsAllowed(op) <==>
      || Initialises(op) || TakesAnything(op) || TakesNumbers(op) || op == "SP" || op == "VS" || IsMover(op)
      || op == "AA" || op == "AR" || op == "CI"
  {
    hide Listed;
    ListedMeans(op);
  }

  // ---- parameters ---------------------------------------------------------------------

  lemma SaneMeans(vals: seq<real>)
    ensures Sane(vals) <==> !AnyUnreasonable(vals)
  {
    if !Sane(vals) {
      var i :| 0 <= i < |vals| && !(-10000000.0 <= vals[i] <= 10000000.0);
      assert Abs(vals[i]) > ABSURD;
    }
  }

  lemma PenLaw(s: Tracker, args: string)
    ensures CheckPen(s, args).report.errors == [] <==> SelectionLawful(args)
  {
    hide ParseNums;
  }

  lemma VelocityLaw(s: Tracker, args: string)
    ensures CheckVelocity(s, args).report.errors == [] <==> ParametersLawful("VS", args)
  {
    hide AnyUnreasonable, Sane, OffStep;
    if args == "" {
      assert ParseNums("") == Some([]);
      assert Sane([]) by { SaneMeans([]); NothingUnreasonable(); }
    } else if ParseNums(args).Some? {
      SaneMeans(ParseNums(args).value);
    }
  }

  lemma NothingUnreasonable()
    ensures !AnyUnreasonable([])
  {
  }

  lemma NumbersLaw(s: Tracker, args: string, count: Option<nat>)
    ensures CheckNumbers(s, args, count).report.errors == [] <==>
      match ParseNums(args)
      case None => false
      case Some(vals) => Sane(vals) && (count.Some? ==> |vals| == count.value)
  {
    hide AnyUnreasonable, Sane, ParseNums;
    if ParseNums(args).Some? {
      SaneMeans(ParseNums(args).value);
    }
  }

  // ---- where the pen is sent ----------------------------------------------------------

  /** At most 200 units outside the paper's limits. */
  predicate InReach(c: Clip, m: Mark) {
    && c.xmin as real - 200.0 <= m.x <= c.xmax as real + 200.0
    && c.ymin as real - 200.0 <= m.y <= c.ymax as real + 200.0
  }

  ghost predicate AllInReach(clip: Option<Clip>, marks: seq<Mark>) {
    clip.Some? ==> forall i :: 0 <= i < |marks| ==> InReach(clip.value, marks[i])
  }

  /** The centre an arc names. */
  function Centre(t: Turtle, op: string, nums: seq<real>): Turtle
    requires |nums| == 3
  {
    if op == "AA" then t.(x := nums[0], y := nums[1]) else t.(x := t.x + nums[0], y := t.y + nums[1])
  }

  /** The points an instruction leads to: those of its plot, the centre of an arc, and none for the
      home move, which leads back to the origin. */
  function CourseOf(t: Turtle, op: string, nums: Option<seq<real>>): Drawing {
    if op == "HM" then Drawing([], t.(x := 0.0, y := 0.0))
    else if (op == "AA" || op == "AR") && nums.Some? && |nums.value| == 3 then
      Drawing([MarkOf(Centre(t, op, nums.value))], Centre(t, op, nums.value))
    else DrawParts(t, op, nums)
  }

  function Course(t: Turtle, raw: string): Drawing { CourseOf(t, OpOf(raw), ParseNums(ArgsOf(raw))) }

  function Courses(t: Turtle, tokens: seq<string>): Drawing
    decreases |tokens|
  {
    if tokens == [] then Drawing([], t)
    else
      var first := Course(t, tokens[0]);
      var rest := Courses(first.end, tokens[1..]);
      Drawing(first.marks + rest.marks, rest.end)
  }

  lemma ReachMeans(clip: Option<Clip>, m: Mark)
    ensures CheckExtent(clip, m.x, m.y).errors == [] <==> AllInReach(clip, [m])
  {
    assert [m][0] == m;
  }

  lemma AllInReachAppend(clip: Option<Clip>, a: seq<Mark>, b: seq<Mark>)
    ensures AllInReach(clip, a + b) <==> AllInReach(clip, a) && AllInReach(clip, b)
  {
    if clip.Some? && AllInReach(clip, a + b) {
      forall i | 0 <= i < |a| ensures InReach(clip.value, a[i]) { assert (a + b)[i] == a[i]; }
      forall i | 0 <= i < |b| ensures InReach(clip.value, b[i]) { assert (a + b)[|a| + i] == b[i]; }
    }
  }

  /** Tracking coordinate pairs: every point of the visit is looked at, and no other. */
  lemma {:induction false} WalkLaw(clip: Option<Clip>, t: Turtle, nums: seq<real>)
    ensures var w, v := WalkPairs(clip, t.absolute, t.x, t.y, nums), Visit(t, nums);
      && w.x == v.end.x && w.y == v.end.y && t.absolute == v.end.absolute
      && (w.report.errors == [] <==> AllInReach(clip, v.marks))
    decreases |nums|
  {
    hide CheckExtent, Then, AllInReach;
    if |nums| >= 2 {
      var t' := StepTo(t, nums[0], nums[1]);
      WalkLaw(clip, t', nums[2..]);
      var rest := WalkPairs(clip, t.absolute, t'.x, t'.y, nums[2..]);
      WalkCons(clip, t.absolute, t.x, t.y, nums, rest);
      ReachMeans(clip, MarkOf(t'));
      Soundness.ThenEmpty(CheckExtent(clip, t'.x, t'.y), rest.report);
      AllInReachAppend(clip, [MarkOf(t')], Visit(t', nums[2..]).marks);
    } else {
      NothingToReach(clip);
    }
  }

  lemma NothingToReach(clip: Option<Clip>)
    ensures AllInReach(clip, [])
  {
  }

  predicate Aligned(t: Turtle, s: Tracker) { t.x == s.x && t.y == s.y && t.absolute == s.absolute }

  lemma MotionLaw(clip: Option<Clip>, s: Tracker, t: Turtle, op: string, args: string)
    requires Aligned(t, s) && IsMover(op)
    ensures var r := CheckMotion(clip, s, op, args);
      && (r.report.errors == [] <==>
            ParametersLawful(op, args) && AllInReach(clip, CourseOf(t, op, ParseNums(args)).marks))
      && (ParametersLawful(op, args) ==> Aligned(CourseOf(t, op, ParseNums(args)).end, r.state))
  {
    hide AnyUnreasonable, Sane, ParseNums, WalkPairs, Visit, AllInReach;
    if ParseNums(args).Some? {
      SaneMeans(ParseNums(args).value);
      WalkLaw(clip, Prepared(t, op), ParseNums(args).value);
    }
  }

  lemma ArcLaw(clip: Option<Clip>, s: Tracker, t: Turtle, op: string, args: string)
    requires Aligned(t, s) && (op == "AA" || op == "AR")
    ensures var r := CheckArc(clip, s, op == "AR", args);
      && (r.report.errors == [] <==>
            ParametersLawful(op, args) && AllInReach(clip, CourseOf(t, op, ParseNums(args)).marks))
      && (ParametersLawful(op, args) ==> Aligned(CourseOf(t, op, ParseNums(args)).end, r.state))
  {
    hide AnyUnreasonable, Sane, ParseNums, CheckExtent, AllInReach;
    if ParseNums(args).Some? {
      SaneMeans(ParseNums(args).value);
      if |ParseNums(args).value| == 3 {
        ReachMeans(clip, MarkOf(Centre(t, op, ParseNums(args).value)));
      }
    }
  }

  /** Instructions that lead nowhere. */
  lemma StillCourse(clip: Option<Clip>, t: Turtle, op: string, nums: Option<seq<real>>)
    requires !IsMover(op) && op != "AA" && op != "AR" && op != "HM" && !Initialises(op)
    ensures var d := CourseOf(t, op, nums);
      AllInReach(clip, d.marks) && d.end.x == t.x && d.end.y == t.y && d.end.absolute == t.absolute
  {
  }

  // ---- one instruction, in a state ----------------------------------------------------

  /** The result of an instruction that leads nowhere. */
  predicate StandsStill(s: Tracker, r: Checked, lawful: bool) {
    && (r.report.errors == [] <==> lawful)
    && r.state.x == s.x && r.state.y == s.y && r.state.absolute == s.absolute
  }

  lemma SelectCase(clip: Option<Clip>, s: Tracker, args: string)
    ensures StandsStill(s, CheckBody(clip, s, "SP", args), ParametersLawful("SP", args))
  {
    hide ParseNums;
    PenLaw(s, args);
  }

  lemma VelocityCase(clip: Option<Clip>, s: Tracker, args: string)
    ensures StandsStill(s, CheckBody(clip, s, "VS", args), ParametersLawful("VS", args))
  {
    hide ParseNums, ParametersLawful;
    VelocityLaw(s, args);
  }

  lemma CircleCase(clip: Option<Clip>, s: Tracker, args: string)
    ensures StandsStill(s, CheckBody(clip, s, "CI", args), ParametersLawful("CI", args))
  {
    hide ParseNums, Sane, AnyUnreasonable;
    NumbersLaw(s, args, Some(1));
  }

  lemma FreestyleCase(clip: Option<Clip>, s: Tracker, op: string, args: string)
    requires IsFreestyle(op)
    ensures StandsStill(s, CheckBody(clip, s, op, args), ParametersLawful(op, args))
  {
  }

  lemma NumericIsNoMover(op: string)
    requires TakesNumbers(op)
    ensures !IsMover(op) && op != "AA" && op != "AR" && op != "CI" && op != "HM"
  {
    assert op[0] == 'A' || op[0] == 'C' || op[0] == 'P' || op[0] == 'H' ==>
        op[1] == 'S' || op[1] == 'T' || op[1] == 'P' || op[1] == 'W';
  }

  lemma NumericIsNoOther(op: string)
    requires TakesNumbers(op)
    ensures op != "SP" && op != "VS" && !IsFreestyle(op) && !IsInit(op)
  {
    assert op[0] == 'S' ==> op[1] == 'I' || op[1] == 'R' || op[1] == 'C';
    assert op[0] == 'D' || op[0] == 'L' || op[0] == 'I' || op[0] == 'V' ==>
        op[1] == 'R' || op[1] == 'T' || op[1] == 'M' || op[1] == 'W' || op[1] == 'P';
  }

  lemma NumericBody(clip: Option<Clip>, s: Tracker, op: string, args: string)
    requires TakesNumbers(op)
    ensures CheckBody(clip, s, op, args) == CheckNumbers(s, args, None)
    ensures ParametersLawful(op, args) <==>
      match ParseNums(args)
      case None => false
      case Some(vals) => Sane(vals)
  {
    hide ParseNums, Sane, CheckNumbers, TakesNumbers;
    NumericIsNoMover(op);
    NumericIsNoOther(op);
  }

  lemma NumericCase(clip: Option<Clip>, s: Tracker, op: string, args: string)
    requires TakesNumbers(op)
    ensures StandsStill(s, CheckBody(clip, s, op, args), ParametersLawful(op, args))
  {
    hide ParseNums, Sane, CheckBody, ParametersLawful, TakesNumbers;
    NumericBody(clip, s, op, args);
    NumbersLaw(s, args, None);
  }

  lemma OtherLaw(clip: Option<Clip>, s: Tracker, op: string, args: string)
    requires op == "SP" || op == "VS" || op == "CI" || IsFreestyle(op) || TakesNumbers(op)
    ensures StandsStill(s, CheckBody(clip, s, op, args), ParametersLawful(op, args))
  {
    hide CheckBody, ParametersLawful, StandsStill, IsFreestyle, TakesNumbers;
    if op == "SP" {
      SelectCase(clip, s, args);
    } else if op == "VS" {
      VelocityCase(clip, s, args);
    } else if op == "CI" {
      CircleCase(clip, s, args);
    } else if IsFreestyle(op) {
      FreestyleCase(clip, s, op, args);
    } else {
      NumericCase(clip, s, op, args);
    }
  }

  lemma BodyLaw(clip: Option<Clip>, s: Tracker, t: Turtle, op: string, args: string)
    requires Aligned(t, s) && IsAllowed(op) && !IsInit(op)
    ensures var r, d := CheckBody(clip, s, op, args), CourseOf(t, op, ParseNums(args));
      && (r.report.errors == [] <==> ParametersLawful(op, args) && AllInReach(clip, d.marks))
      && (ParametersLawful(op, args) ==> Aligned(d.end, r.state))
  {
    hide IsAllowed, ParseNums, ParametersLawful, CourseOf, AllInReach, CheckMotion, CheckArc;
    AllowedMeans(op);
    if IsMover(op) {
      MotionLaw(clip, s, t, op, args);
    } else if op == "AA" || op == "AR" {
      ArcLaw(clip, s, t, op, args);
    } else if op == "HM" {
      HomeLaw(clip, t, args);
    } else {
      OtherLaw(clip, s, op, args);
      StillCourse(clip, t, op, ParseNums(args));
    }
  }

  lemma HomeLaw(clip: Option<Clip>, t: Turtle, args: string)
    ensures ParametersLawful("HM", args) && AllInReach(clip, CourseOf(t, "HM", ParseNums(args)).marks)
    ensures CourseOf(t, "HM", ParseNums(args)).end == t.(x := 0.0, y := 0.0)
  {
  }

  /** The points a token leads to, and what it does to the validator's state. */
  lemma KindLaw(clip: Option<Clip>, s: Tracker, t: Turtle, raw: string)
    requires Aligned(t, s)
    ensures var r, d := CheckKind(clip, s, KindOf(raw)), Course(t, raw);
      && (r.report.errors == [] <==>
            TokenLawful(raw) && (Resets(raw) ==> !s.seenBody) && AllInReach(clip, d.marks))
      && (TokenLawful(raw) ==>
            && Aligned(d.end, r.state)
            && (r.state.seenBody <==> s.seenBody || (Strip(raw) != "" && !Resets(raw))))
  {
    hide IsAllowed, IsQuery, ParametersLawful, CourseOf, AllInReach, Course, CheckBody, OpOf, ArgsOf, Letters, Resets;
    var op, args := OpOf(raw), ArgsOf(raw);
    match KindOf(raw) {
      case Blank => BlankLaw(clip, t, raw);
      case Refused(_) => RefusedLaw(raw);
      case Init => InitLaw(clip, t, raw);
      case Body(_, _) =>
        BodyResets(raw);
        BodyLaw(clip, s.(seenBody := true), t, op, args);
        assert Course(t, raw) == CourseOf(t, op, ParseNums(args)) by { CourseUnfolds(t, raw); }
        Soundness.ThenEmpty(if IsIneffective(op) then Note(Ineffective) else CLEAN,
                            CheckBody(clip, s.(seenBody := true), op, args).report);
    }
  }

  lemma CourseUnfolds(t: Turtle, raw: string)
    ensures Course(t, raw) == CourseOf(t, OpOf(raw), ParseNums(ArgsOf(raw)))
  {
  }

  lemma BlankLaw(clip: Option<Clip>, t: Turtle, raw: string)
    requires Strip(raw) == ""
    ensures TokenLawful(raw) && !Resets(raw) && Course(t, raw) == Drawing([], t) && AllInReach(clip, [])
  {
    assert OpOf(raw) == "";
  }

  lemma InitLaw(clip: Option<Clip>, t: Turtle, raw: string)
    requires KindOf(raw).Init?
    ensures TokenLawful(raw) && Resets(raw) && Strip(raw) != "" && AllInReach(clip, [])
    ensures Course(t, raw) == Drawing([], t.(absolute := true, down := false))
  {
    hide IsAllowed, IsQuery, ParseNums;
  }

  lemma BodyResets(raw: string)
    requires KindOf(raw).Body?
    ensures KindOf(raw) == Body(OpOf(raw), ArgsOf(raw)) && Strip(raw) != "" && Letters(Strip(raw))
    ensures IsAllowed(OpOf(raw)) && !IsInit(OpOf(raw)) && !Resets(raw)
  {
    hide IsAllowed, IsQuery;
  }

  /** Nothing the validator refuses out of hand is lawful. */
  lemma RefusedLaw(raw: string)
    requires KindOf(raw).Refused?
    ensures !TokenLawful(raw)
  {
    hide ParseNums, IsAllowed;
    AllowedMeans(OpOf(raw));
    if IsAllowed(OpOf(raw)) {
      AllowedIsNoQuery(OpOf(raw));
    } else {
      ForbiddenLaw(OpOf(raw), ArgsOf(raw));
    }
  }

  lemma QueryLetter(op: string)
    requires IsQuery(op)
    ensures |op| == 2 && op[0] == 'O'
  {
  }

  lemma AllowedLetter(op: string)
    requires IsAllowed(op)
    ensures |op| == 2 && op[0] != 'O'
  {
    hide IsAllowed;
    AllowedMeans(op);
  }

  lemma AllowedIsNoQuery(op: string)
    requires IsAllowed(op)
    ensures !IsQuery(op)
  {
    hide IsAllowed, IsQuery;
    AllowedLetter(op);
    if IsQuery(op) {
      QueryLetter(op);
    }
  }

  lemma ForbiddenLaw(op: string, args: string)
    requires !IsAllowed(op)
    ensures !ParametersLawful(op, args)
  {
    hide IsAllowed, ParseNums;
    AllowedMeans(op);
  }

  // ---- the whole payload --------------------------------------------------------------

  /** Nothing but blanks and other initialisations comes before an initialisation, counting a body
      instruction seen earlier. */
  predicate ResetsFirst(seen: bool, tokens: seq<string>)
    decreases |tokens|
  {
    tokens == [] ||
    ((Resets(tokens[0]) ==> !seen) && ResetsFirst(seen || (Strip(tokens[0]) != "" && !Resets(tokens[0])), tokens[1..]))
  }

  ghost predicate AllLawful(tokens: seq<string>) { forall j :: 0 <= j < |tokens| ==> TokenLawful(tokens[j]) }

  lemma AllLawfulCons(tokens: seq<string>)
    requires tokens != []
    ensures AllLawful(tokens) <==> TokenLawful(tokens[0]) && AllLawful(tokens[1..])
  {
    if TokenLawful(tokens[0]) && AllLawful(tokens[1..]) {
      forall j | 0 <= j < |tokens| ensures TokenLawful(tokens[j]) {
        assert j > 0 ==> tokens[j] == tokens[1..][j - 1];
      }
    }
    if AllLawful(tokens) {
      forall j | 0 <= j < |tokens| - 1 ensures TokenLawful(tokens[1..][j]) {
        assert tokens[1..][j] == tokens[j + 1];
      }
    }
  }

  lemma {:induction false} TokensLaw(clip: Option<Clip>, s: Tracker, t: Turtle, tokens: seq<string>)
    requires Aligned(t, s)
    ensures CheckAll(clip, s, Kinds(tokens)).report.errors == [] <==>
      AllLawful(tokens) && ResetsFirst(s.seenBody, tokens) && AllInReach(clip, Courses(t, tokens).marks)
    decreases |tokens|
  {
    hide CheckKind, KindOf, TokenLawful, Resets, Course, AllInReach, AllLawful, Aligned, Then, Strip;
    if tokens == [] {
      NothingToReach(clip);
      assert AllLawful(tokens) by { NothingUnlawful(); }
    } else {
      var raw := tokens[0];
      var first, d := CheckKind(clip, s, KindOf(raw)), Course(t, raw);
      KindLaw(clip, s, t, raw);
      AllLawfulCons(tokens);
      assert Kinds(tokens)[1..] == Kinds(tokens[1..]);
      Soundness.ThenEmpty(first.report, CheckAll(clip, first.state, Kinds(tokens[1..])).report);
      AllInReachAppend(clip, d.marks, Courses(d.end, tokens[1..]).marks);
      if TokenLawful(raw) {
        TokensLaw(clip, first.state, d.end, tokens[1..]);
      }
    }
  }

  lemma NothingUnlawful()
    ensures AllLawful([])
  {
  }

  lemma {:induction false} ResetsFirstMeans(seen: bool, tokens: seq<string>)
    ensures ResetsFirst(seen, tokens) <==>
      && (seen ==> forall j :: 0 <= j < |tokens| ==> !Resets(tokens[j]))
      && forall i, j :: 0 <= i < j < |tokens| && Resets(tokens[j]) ==> Strip(tokens[i]) == "" || Resets(tokens[i])
    decreases |tokens|
  {
    hide Resets, Strip;
    if tokens != [] {
      var rest := tokens[1..];
      ResetsFirstMeans(seen || (Strip(tokens[0]) != "" && !Resets(tokens[0])), rest);
      assert forall j :: 0 < j < |tokens| ==> tokens[j] == rest[j - 1];
      assert forall j :: 0 <= j < |rest| ==> rest[j] == tokens[j + 1];
    }
  }

  predicate IsForbidden(c: char) { c < ' ' && c != '\t' && c != '\n' && c != '\r' }

  /** When a payload is accepted: it has at most five mebibytes, no escape and no other control
      character than tab, line feed and carriage return, and nothing but blanks behind the last
      terminator; each of its instructions is lawful by itself; IN and DF come before everything else;
      and, when the paper is known, no point it leads to is more than 200 units outside it. */
  lemma AcceptedExactly(text: string, clip: Option<Clip>)
    ensures Ok(text, clip) <==>
      && |text| <= 5242880
      && (forall i :: 0 <= i < |text| ==> !IsForbidden(text[i]))
      && Strip(Tail(text)) == ""
      && AllLawful(Tokens(text))
      && (forall i, j :: 0 <= i < j < |Tokens(text)| && Resets(Tokens(text)[j]) ==>
            Strip(Tokens(text)[i]) == "" || Resets(Tokens(text)[i]))
      && AllInReach(clip, Courses(HOME, Tokens(text)).marks)
  {
    hide CheckAll, Kinds, Tokens, Tail, AllLawful, Resets, Strip, Courses, AllInReach;
    if |text| <= MAX_JOB_BYTES {
      SplitVerdict.ControlsMean(text, 0);
      if ControlErrors(text, 0) == [] {
        SplitVerdict.ValidationParts(text, clip);
        TokensLaw(clip, START, HOME, Tokens(text));
        ResetsFirstMeans(false, Tokens(text));
      }
    }
  }

  /** Which control characters are reported: every escape and every other forbidden character, each at
      its place, and nothing else. */
  lemma {:induction false} ControlsReported(text: string, at: nat, p: Problem)
    requires at <= |text|
    ensures p in ControlErrors(text, at) <==>
      || (p.Escape? && at <= p.at < |text| && text[p.at] == '\U{1b}')
      || (p.Control? && at <= p.at < |text| && IsForbidden(text[p.at]) && text[p.at] != '\U{1b}')
    decreases |text| - at
  {
    if at < |text| {
      ControlsReported(text, at + 1, p);
    }
  }

  /** A payload that is too long, or holds such a character, is not looked at any further. */
  lemma RefusedEarly(text: string, clip: Option<Clip>)
    ensures |text| > 5242880 ==> Validation(text, clip) == Report([TooLarge], [])
    ensures |text| <= 5242880 && (exists i :: 0 <= i < |text| && IsForbidden(text[i])) ==>
      Validation(text, clip) == Report(ControlErrors(text, 0), [])
  {
    hide CheckAll, Kinds, Tokens;
    SplitVerdict.ControlsMean(text, 0);
  }

  /** In particular every pen selection of an accepted payload names one whole pen from 0 to 6, and a
      payload with any other selection is refused. */
  lemma SelectionsAreBounded(text: string, clip: Option<Clip>, j: nat)
    requires j < |Tokens(text)| && OpOf(Tokens(text)[j]) == "SP" && ArgsOf(Tokens(text)[j]) != ""
    ensures var nums := ParseNums(ArgsOf(Tokens(text)[j]));
      Ok(text, clip) ==>
        nums.Some? && |nums.value| == 1 && nums.value[0].Floor as real == nums.value[0] && 0.0 <= nums.value[0] <= 6.0
  {
    hide Tokens, ParseNums, Courses, AllInReach, Tail, Ok, Sane, NumbersLawful, TakesNumbers;
    AcceptedExactly(text, clip);
    if Ok(text, clip) {
      assert TokenLawful(Tokens(text)[j]);
      assert Strip(Tokens(text)[j]) != "" by { BlankHasNoOp(Tokens(text)[j]); }
    }
  }

  lemma BlankHasNoOp(raw: string)
    ensures Strip(raw) == "" ==> OpOf(raw) == "" && ArgsOf(raw) == ""
  {
  }

  // ---- what is noted ------------------------------------------------------------------

  /** The speed is `k` steps of 0.38 cm/s, up to a millionth of a step. */
  predicate OnStep(v: real, k: int) { k as real - 0.000001 <= v / 0.38 <= k as real + 0.000001 }

  ghost predicate OffGrid(v: real) { forall k: int :: !OnStep(v, k) }

  lemma OffGridMeans(v: real)
    ensures OffStep(v) <==> OffGrid(v)
  {
    if OffStep(v) {
      forall k: int ensures !OnStep(v, k) {
        Nearest(v, k);
      }
    } else {
      assert OnStep(v, (v / 0.38 + 0.5).Floor);
    }
  }

  /** Rounding gives the nearest whole number. */
  lemma Nearest(v: real, k: int)
    ensures OnStep(v, k) ==> OnStep(v, (v / 0.38 + 0.5).Floor)
  {
    var q := v / 0.38;
    var f := (q + 0.5).Floor;
    assert f as real <= q + 0.5 < f as real + 1.0;
    if k < f {
      assert k as real <= f as real - 1.0;
    } else if k > f {
      assert k as real >= f as real + 1.0;
    }
  }

  /** Outside the paper's limits. */
  predicate Outside(c: Clip, m: Mark) {
    m.x < c.xmin as real || c.xmax as real < m.x || m.y < c.ymin as real || c.ymax as real < m.y
  }

  /** A velocity instruction with a speed off the grid. */
  ghost predicate OddSpeed(raw: string) {
    OpOf(raw) == "VS" && ArgsOf(raw) != "" &&
    match ParseNums(ArgsOf(raw))
    case None => false
    case Some(vals) => vals != [] && vals[0] != 0.0 && OffGrid(vals[0])
  }

  predicate NoEffect(raw: string) { OpOf(raw) == "FS" || OpOf(raw) == "PW" }

  ghost predicate PassesEdge(clip: Option<Clip>, marks: seq<Mark>, x: real, y: real) {
    clip.Some? && exists i :: 0 <= i < |marks| && marks[i].x == x && marks[i].y == y && Outside(clip.value, marks[i])
  }

  /** What is noted about one instruction from a point on. */
  ghost predicate Notes(clip: Option<Clip>, t: Turtle, raw: string, a: Advice) {
    match a
    case Ineffective => NoEffect(raw)
    case VelocityOffStep => OddSpeed(raw)
    case NearEdge(x, y) => PassesEdge(clip, Course(t, raw).marks, x, y)
    case EndsPenDown => false
    case EndsPenHeld => false
  }

  ghost predicate Noted(clip: Option<Clip>, t: Turtle, tokens: seq<string>, a: Advice)
    decreases |tokens|
  {
    tokens != [] && (Notes(clip, t, tokens[0], a) || Noted(clip, Course(t, tokens[0]).end, tokens[1..], a))
  }

  lemma PassesAppend(clip: Option<Clip>, a: seq<Mark>, b: seq<Mark>, x: real, y: real)
    ensures PassesEdge(clip, a + b, x, y) <==> PassesEdge(clip, a, x, y) || PassesEdge(clip, b, x, y)
  {
    if clip.Some? {
      var all := a + b;
      if PassesEdge(clip, a, x, y) {
        var i :| 0 <= i < |a| && a[i].x == x && a[i].y == y && Outside(clip.value, a[i]);
        assert all[i] == a[i];
      }
      if PassesEdge(clip, b, x, y) {
        var i :| 0 <= i < |b| && b[i].x == x && b[i].y == y && Outside(clip.value, b[i]);
        assert all[|a| + i] == b[i];
      }
    }
  }

  lemma NothingPasses(clip: Option<Clip>, x: real, y: real)
    ensures !PassesEdge(clip, [], x, y)
  {
  }

  lemma ExtentNotes(clip: Option<Clip>, m: Mark, a: Advice)
    requires CheckExtent(clip, m.x, m.y).errors == []
    ensures a in CheckExtent(clip, m.x, m.y).warnings <==> a.NearEdge? && PassesEdge(clip, [m], a.x, a.y)
  {
    assert [m][0] == m;
  }

  lemma ThenNotes(r: Report, q: Report, a: Advice)
    ensures a in Then(r, q).warnings <==> a in r.warnings || a in q.warnings
  {
  }

  lemma {:induction false} WalkNotes(clip: Option<Clip>, t: Turtle, nums: seq<real>, a: Advice)
    requires WalkPairs(clip, t.absolute, t.x, t.y, nums).report.errors == []
    ensures a in WalkPairs(clip, t.absolute, t.x, t.y, nums).report.warnings <==>
      a.NearEdge? && PassesEdge(clip, Visit(t, nums).marks, a.x, a.y)
    decreases |nums|
  {
    hide CheckExtent, Then, PassesEdge;
    if |nums| >= 2 {
      var t' := StepTo(t, nums[0], nums[1]);
      var rest := WalkPairs(clip, t.absolute, t'.x, t'.y, nums[2..]);
      WalkCons(clip, t.absolute, t.x, t.y, nums, rest);
      Soundness.ThenEmpty(CheckExtent(clip, t'.x, t'.y), rest.report);
      WalkNotes(clip, t', nums[2..], a);
      ExtentNotes(clip, MarkOf(t'), a);
      ThenNotes(CheckExtent(clip, t'.x, t'.y), rest.report, a);
      if a.NearEdge? {
        PassesAppend(clip, [MarkOf(t')], Visit(t', nums[2..]).marks, a.x, a.y);
      }
    } else if a.NearEdge? {
      NothingPasses(clip, a.x, a.y);
    }
  }

  lemma MotionNotes(clip: Option<Clip>, s: Tracker, t: Turtle, op: string, args: string, a: Advice)
    requires Aligned(t, s) && IsMover(op) && CheckMotion(clip, s, op, args).report.errors == []
    ensures a in CheckMotion(clip, s, op, args).report.warnings <==>
      a.NearEdge? && PassesEdge(clip, CourseOf(t, op, ParseNums(args)).marks, a.x, a.y)
  {
    hide AnyUnreasonable, ParseNums, WalkPairs, Visit, PassesEdge;
    WalkNotes(clip, Prepared(t, op), ParseNums(args).value, a);
  }

  lemma ArcNotes(clip: Option<Clip>, s: Tracker, t: Turtle, op: string, args: string, a: Advice)
    requires Aligned(t, s) && (op == "AA" || op == "AR") && CheckArc(clip, s, op == "AR", args).report.errors == []
    ensures a in CheckArc(clip, s, op == "AR", args).report.warnings <==>
      a.NearEdge? && PassesEdge(clip, CourseOf(t, op, ParseNums(args)).marks, a.x, a.y)
  {
    hide AnyUnreasonable, ParseNums, CheckExtent, PassesEdge;
    ExtentNotes(clip, MarkOf(Centre(t, op, ParseNums(args).value)), a);
  }

  lemma StillNotes(clip: Option<Clip>, t: Turtle, op: string, nums: Option<seq<real>>, x: real, y: real)
    requires !IsMover(op) && op != "AA" && op != "AR"
    ensures !PassesEdge(clip, CourseOf(t, op, nums).marks, x, y)
  {
  }

  lemma VelocityNotes(s: Tracker, args: string, a: Advice)
    requires CheckVelocity(s, args).report.errors == []
    ensures a in CheckVelocity(s, args).report.warnings <==>
      && a == VelocityOffStep && args != ""
      && match ParseNums(args)
         case None => false
         case Some(vals) => vals != [] && vals[0] != 0.0 && OffGrid(vals[0])
  {
    hide AnyUnreasonable, ParseNums, OffStep, OffGrid;
    if args != "" && ParseNums(args).Some? && ParseNums(args).value != [] {
      OffGridMeans(ParseNums(args).value[0]);
    }
  }

  ghost predicate BodyNoted(clip: Option<Clip>, t: Turtle, op: string, args: string, a: Advice) {
    match a
    case VelocityOffStep =>
      op == "VS" && args != "" &&
      (match ParseNums(args)
       case None => false
       case Some(vals) => vals != [] && vals[0] != 0.0 && OffGrid(vals[0]))
    case NearEdge(x, y) => PassesEdge(clip, CourseOf(t, op, ParseNums(args)).marks, x, y)
    case _ => false
  }

  lemma QuietBody(clip: Option<Clip>, s: Tracker, op: string, args: string)
    requires !IsMover(op) && op != "AA" && op != "AR" && op != "VS"
    ensures CheckBody(clip, s, op, args).report.warnings == []
  {
    hide ParseNums, AnyUnreasonable;
  }

  lemma BodyNotes(clip: Option<Clip>, s: Tracker, t: Turtle, op: string, args: string, a: Advice)
    requires Aligned(t, s) && CheckBody(clip, s, op, args).report.errors == []
    ensures a in CheckBody(clip, s, op, args).report.warnings <==> BodyNoted(clip, t, op, args, a)
  {
    hide ParseNums, PassesEdge, CourseOf, CheckMotion, CheckArc, CheckVelocity, OffGrid;
    if IsMover(op) {
      MotionNotes(clip, s, t, op, args, a);
    } else if op == "AA" || op == "AR" {
      ArcNotes(clip, s, t, op, args, a);
    } else {
      if a.NearEdge? {
        StillNotes(clip, t, op, ParseNums(args), a.x, a.y);
      }
      if op == "VS" {
        VelocityNotes(s, args, a);
      } else {
        QuietBody(clip, s, op, args);
      }
    }
  }

  lemma NoBodyNotes(clip: Option<Clip>, t: Turtle, raw: string, a: Advice)
    requires KindOf(raw).Blank? || KindOf(raw).Init?
    ensures !Notes(clip, t, raw, a)
  {
    hide ParseNums, IsAllowed, IsQuery;
    if Strip(raw) == "" {
      BlankLaw(clip, t, raw);
      BlankHasNoOp(raw);
    } else {
      InitLaw(clip, t, raw);
    }
  }

  lemma NotesOfBody(clip: Option<Clip>, t: Turtle, raw: string, a: Advice)
    ensures Notes(clip, t, raw, a) <==>
      (a == Ineffective && IsIneffective(OpOf(raw))) || BodyNoted(clip, t, OpOf(raw), ArgsOf(raw), a)
  {
    hide ParseNums, OpOf, ArgsOf, PassesEdge, CourseOf;
  }

  lemma KindNotes(clip: Option<Clip>, s: Tracker, t: Turtle, raw: string, a: Advice)
    requires Aligned(t, s) && CheckKind(clip, s, KindOf(raw)).report.errors == []
    ensures a in CheckKind(clip, s, KindOf(raw)).report.warnings <==> Notes(clip, t, raw, a)
  {
    hide IsAllowed, IsQuery, Course, CheckBody, OpOf, ArgsOf, Notes, Then;
    match KindOf(raw) {
      case Blank => NoBodyNotes(clip, t, raw, a);
      case Refused(_) =>
      case Init => NoBodyNotes(clip, t, raw, a);
      case Body(op, args) =>
        BodyResets(raw);
        var note := if IsIneffective(op) then Note(Ineffective) else CLEAN;
        var body := CheckBody(clip, s.(seenBody := true), op, args);
        Soundness.ThenEmpty(note, body.report);
        ThenNotes(note, body.report, a);
        BodyNotes(clip, s.(seenBody := true), t, op, args, a);
        NotesOfBody(clip, t, raw, a);
    }
  }

  lemma {:induction false} TokensNotes(clip: Option<Clip>, s: Tracker, t: Turtle, tokens: seq<string>, a: Advice)
    requires Aligned(t, s) && CheckAll(clip, s, Kinds(tokens)).report.errors == []
    ensures a in CheckAll(clip, s, Kinds(tokens)).report.warnings <==> Noted(clip, t, tokens, a)
    decreases |tokens|
  {
    hide CheckKind, KindOf, TokenLawful, Resets, Course, AllInReach, Aligned, Then, Notes;
    if tokens != [] {
      var raw := tokens[0];
      var first := CheckKind(clip, s, KindOf(raw));
      KindLaw(clip, s, t, raw);
      assert Kinds(tokens)[1..] == Kinds(tokens[1..]);
      var rest := CheckAll(clip, first.state, Kinds(tokens[1..]));
      Soundness.ThenEmpty(first.report, rest.report);
      KindNotes(clip, s, t, raw, a);
      ThenNotes(first.report, rest.report, a);
      TokensNotes(clip, first.state, Course(t, raw).end, tokens[1..], a);
    }
  }

  lemma {:induction false} NotedEdges(clip: Option<Clip>, t: Turtle, tokens: seq<string>, x: real, y: real)
    ensures Noted(clip, t, tokens, NearEdge(x, y)) <==> PassesEdge(clip, Courses(t, tokens).marks, x, y)
    decreases |tokens|
  {
    hide Course, PassesEdge;
    if tokens == [] {
      NothingPasses(clip, x, y);
    } else {
      var d := Course(t, tokens[0]);
      NotedEdges(clip, d.end, tokens[1..], x, y);
      PassesAppend(clip, d.marks, Courses(d.end, tokens[1..]).marks, x, y);
    }
  }

  /** Advice that a token draws by itself is noted exactly when some token draws it. */
  lemma {:induction false} NotedSomewhere(clip: Option<Clip>, t: Turtle, tokens: seq<string>, a: Advice)
    requires a == Ineffective || a == VelocityOffStep
    ensures Noted(clip, t, tokens, a) <==>
      exists j :: 0 <= j < |tokens| && (if a == Ineffective then NoEffect(tokens[j]) else OddSpeed(tokens[j]))
    decreases |tokens|
  {
    hide Course, NoEffect, OddSpeed;
    if tokens != [] {
      NotedSomewhere(clip, Course(t, tokens[0]).end, tokens[1..], a);
      assert forall j :: 0 < j < |tokens| ==> tokens[j] == tokens[1..][j - 1];
      assert forall j :: 0 <= j < |tokens| - 1 ==> tokens[1..][j] == tokens[j + 1];
    }
  }

  // ---- how it ends --------------------------------------------------------------------

  /** The pen an instruction takes, if it takes one. */
  function Taken(raw: string): Option<real> {
    TakenBy(OpOf(raw), ArgsOf(raw))
  }

  function TakenBy(op: string, args: string): Option<real> {
    if args == "" || ParseNums(args).None? then None
    else
      var vals := ParseNums(args).value;
      if op == "SP" && |vals| == 1 then Some(vals[0])
      else if op == "VS" && |vals| == 2 then Some(vals[1])
      else None
  }

  predicate Lowers(raw: string) { OpOf(raw) == "PD" }

  /** Pen up, the home move, and putting the pen away. */
  predicate Lifts(raw: string) {
    OpOf(raw) == "PU" || OpOf(raw) == "HM" || (OpOf(raw) == "SP" && Taken(raw) == Some(0.0))
  }

  function PenAfter(pen: real, taken: Option<real>): real { if taken.Some? then taken.value else pen }

  function DownAfter(down: bool, op: string, args: string): bool {
    if op == "PD" then true
    else if op == "PU" || op == "HM" || (op == "SP" && TakenBy(op, args) == Some(0.0)) then false
    else down
  }

  /** The instruction leaves the pen as it should. */
  predicate LeavesPen(s: Tracker, after: Tracker, op: string, args: string) {
    after.pen == PenAfter(s.pen, TakenBy(op, args)) && after.penDown == DownAfter(s.penDown, op, args)
  }

  lemma SelectLeaves(clip: Option<Clip>, s: Tracker, args: string)
    requires CheckBody(clip, s, "SP", args).report.errors == []
    ensures LeavesPen(s, CheckBody(clip, s, "SP", args).state, "SP", args)
  {
    hide ParseNums;
  }

  lemma VelocityLeaves(clip: Option<Clip>, s: Tracker, args: string)
    requires CheckBody(clip, s, "VS", args).report.errors == []
    ensures LeavesPen(s, CheckBody(clip, s, "VS", args).state, "VS", args)
  {
    hide ParseNums, AnyUnreasonable, OffStep;
  }

  lemma MotionLeaves(clip: Option<Clip>, s: Tracker, op: string, args: string)
    requires IsMover(op) && CheckMotion(clip, s, op, args).report.errors == []
    ensures LeavesPen(s, CheckMotion(clip, s, op, args).state, op, args)
  {
    hide ParseNums, AnyUnreasonable, WalkPairs;
  }

  lemma OtherLeaves(clip: Option<Clip>, s: Tracker, op: string, args: string)
    requires !IsMover(op) && op != "SP" && op != "VS"
    ensures LeavesPen(s, CheckBody(clip, s, op, args).state, op, args)
  {
    hide ParseNums, AnyUnreasonable, CheckExtent;
  }

  lemma PenBody(clip: Option<Clip>, s: Tracker, op: string, args: string)
    requires CheckBody(clip, s, op, args).report.errors == []
    ensures LeavesPen(s, CheckBody(clip, s, op, args).state, op, args)
  {
    hide LeavesPen, CheckMotion, CheckArc, CheckVelocity, CheckPen, CheckNumbers;
    if op == "SP" {
      SelectLeaves(clip, s, args);
    } else if op == "VS" {
      VelocityLeaves(clip, s, args);
    } else if IsMover(op) {
      MotionBodyIs(clip, s, op, args);
      MotionLeaves(clip, s, op, args);
    } else {
      OtherLeaves(clip, s, op, args);
    }
  }

  lemma MotionBodyIs(clip: Option<Clip>, s: Tracker, op: string, args: string)
    requires IsMover(op)
    ensures CheckBody(clip, s, op, args) == CheckMotion(clip, s, op, args)
  {
    hide CheckMotion;
    MotionAllowed(op);
  }

  lemma NoPenTaken(raw: string)
    requires KindOf(raw).Blank? || KindOf(raw).Init?
    ensures Taken(raw).None? && !Lowers(raw) && !Lifts(raw)
  {
    hide ParseNums, IsAllowed, IsQuery;
    if Strip(raw) == "" {
      BlankHasNoOp(raw);
    }
  }

  lemma PenKind(clip: Option<Clip>, s: Tracker, raw: string)
    requires CheckKind(clip, s, KindOf(raw)).report.errors == []
    ensures var after := CheckKind(clip, s, KindOf(raw)).state;
      && after.pen == PenAfter(s.pen, Taken(raw))
      && after.penDown == (Lowers(raw) || (s.penDown && !Lifts(raw)))
  {
    hide IsAllowed, IsQuery, CheckBody, OpOf, ArgsOf, Then, ParseNums;
    match KindOf(raw) {
      case Blank => NoPenTaken(raw);
      case Refused(_) =>
      case Init => NoPenTaken(raw);
      case Body(op, args) =>
        BodyResets(raw);
        var note := if IsIneffective(op) then Note(Ineffective) else CLEAN;
        Soundness.ThenEmpty(note, CheckBody(clip, s.(seenBody := true), op, args).report);
        PenBody(clip, s.(seenBody := true), op, args);
    }
  }

  /** The pen is lowered at instruction `i` and not lifted behind it. */
  ghost predicate LowersLast(tokens: seq<string>, i: int) {
    0 <= i < |tokens| && Lowers(tokens[i]) && forall j :: i < j < |tokens| ==> !Lifts(tokens[j])
  }

  /** Pen `v` is taken at instruction `i` and none behind it. */
  ghost predicate TakesLast(tokens: seq<string>, i: int, v: real) {
    0 <= i < |tokens| && Taken(tokens[i]) == Some(v) && forall j :: i < j < |tokens| ==> Taken(tokens[j]).None?
  }

  lemma LowersLastCons(tokens: seq<string>)
    requires tokens != []
    ensures (exists i :: LowersLast(tokens, i)) <==>
      (exists i :: LowersLast(tokens[1..], i))
      || (Lowers(tokens[0]) && forall j :: 0 <= j < |tokens| - 1 ==> !Lifts(tokens[1..][j]))
  {
    hide Lowers, Lifts;
    var rest := tokens[1..];
    assert forall j :: 0 < j < |tokens| ==> tokens[j] == rest[j - 1];
    if exists i :: LowersLast(tokens, i) {
      var i :| LowersLast(tokens, i);
      if i > 0 {
        assert forall j :: i - 1 < j < |rest| ==> rest[j] == tokens[j + 1];
        assert LowersLast(rest, i - 1);
      } else {
        assert forall j :: 0 <= j < |rest| ==> rest[j] == tokens[j + 1];
      }
    }
    if exists i :: LowersLast(rest, i) {
      var i :| LowersLast(rest, i);
      assert forall j :: i + 1 < j < |tokens| ==> tokens[j] == rest[j - 1];
      assert LowersLast(tokens, i + 1);
    }
    if Lowers(tokens[0]) && forall j :: 0 <= j < |rest| ==> !Lifts(rest[j]) {
      assert LowersLast(tokens, 0);
    }
  }

  lemma TakesLastCons(tokens: seq<string>, v: real)
    requires tokens != []
    ensures (exists i :: TakesLast(tokens, i, v)) <==>
      (exists i :: TakesLast(tokens[1..], i, v))
      || (Taken(tokens[0]) == Some(v) && forall j :: 0 <= j < |tokens| - 1 ==> Taken(tokens[1..][j]).None?)
  {
    hide Taken;
    var rest := tokens[1..];
    assert forall j :: 0 < j < |tokens| ==> tokens[j] == rest[j - 1];
    if exists i :: TakesLast(tokens, i, v) {
      var i :| TakesLast(tokens, i, v);
      if i > 0 {
        assert forall j :: i - 1 < j < |rest| ==> rest[j] == tokens[j + 1];
        assert TakesLast(rest, i - 1, v);
      } else {
        assert forall j :: 0 <= j < |rest| ==> rest[j] == tokens[j + 1];
      }
    }
    if exists i :: TakesLast(rest, i, v) {
      var i :| TakesLast(rest, i, v);
      assert forall j :: i + 1 < j < |tokens| ==> tokens[j] == rest[j - 1];
      assert TakesLast(tokens, i + 1, v);
    }
    if Taken(tokens[0]) == Some(v) && forall j :: 0 <= j < |rest| ==> Taken(rest[j]).None? {
      assert TakesLast(tokens, 0, v);
    }
  }

  lemma LiftsCons(tokens: seq<string>)
    requires tokens != []
    ensures (forall j :: 0 <= j < |tokens| ==> !Lifts(tokens[j])) <==>
      !Lifts(tokens[0]) && forall j :: 0 <= j < |tokens| - 1 ==> !Lifts(tokens[1..][j])
    ensures (forall j :: 0 <= j < |tokens| ==> Taken(tokens[j]).None?) <==>
      Taken(tokens[0]).None? && forall j :: 0 <= j < |tokens| - 1 ==> Taken(tokens[1..][j]).None?
  {
    hide Lifts, Taken;
    assert forall j :: 0 < j < |tokens| ==> tokens[j] == tokens[1..][j - 1];
    assert forall j :: 0 <= j < |tokens| - 1 ==> tokens[1..][j] == tokens[j + 1];
  }

  /** How the pen is left: the last instruction that lowers or lifts it decides, and the last that
      takes one. */
  lemma {:induction false} PenLeft(clip: Option<Clip>, s: Tracker, tokens: seq<string>, v: real)
    requires CheckAll(clip, s, Kinds(tokens)).report.errors == []
    ensures var after := CheckAll(clip, s, Kinds(tokens)).state;
      && (after.penDown <==>
            (exists i :: LowersLast(tokens, i))
            || (s.penDown && forall j :: 0 <= j < |tokens| ==> !Lifts(tokens[j])))
      && (after.pen == v <==>
            (exists i :: TakesLast(tokens, i, v))
            || (s.pen == v && forall j :: 0 <= j < |tokens| ==> Taken(tokens[j]).None?))
    decreases |tokens|
  {
    hide CheckKind, KindOf, Lowers, Lifts, Taken, Then, LowersLast, TakesLast;
    if tokens == [] {
      NothingLast(v);
    } else {
      var first := CheckKind(clip, s, KindOf(tokens[0]));
      assert Kinds(tokens)[1..] == Kinds(tokens[1..]);
      var rest := CheckAll(clip, first.state, Kinds(tokens[1..]));
      Soundness.ThenEmpty(first.report, rest.report);
      PenKind(clip, s, tokens[0]);
      PenLeft(clip, first.state, tokens[1..], v);
      LowersLastCons(tokens);
      TakesLastCons(tokens, v);
      LiftsCons(tokens);
    }
  }

  lemma NothingLast(v: real)
    ensures forall i :: !LowersLast([], i) && !TakesLast([], i, v)
  {
  }

  /** What is noted about an accepted payload, advice by advice: an instruction without effect, a
      velocity off the grid, every point outside the paper's limits, a pen left down, and a pen not
      put away. */
  lemma NotedExactly(text: string, clip: Option<Clip>)
    requires Ok(text, clip)
    ensures var notes, tokens := Validation(text, clip).warnings, Tokens(text);
      && (Ineffective in notes <==> exists j :: 0 <= j < |tokens| && NoEffect(tokens[j]))
      && (VelocityOffStep in notes <==> exists j :: 0 <= j < |tokens| && OddSpeed(tokens[j]))
      && (forall x, y :: NearEdge(x, y) in notes <==> PassesEdge(clip, Courses(HOME, tokens).marks, x, y))
      && (EndsPenDown in notes <==> exists i :: LowersLast(tokens, i))
      && (EndsPenHeld in notes <==>
            !((exists i :: TakesLast(tokens, i, 0.0)) || forall j :: 0 <= j < |tokens| ==> Taken(tokens[j]).None?))
  {
    hide CheckAll, Kinds, Tokens, NoEffect, OddSpeed, PassesEdge, Courses, LowersLast, TakesLast, Taken, Noted;
    var tokens := Tokens(text);
    AcceptedExactly(text, clip);
    OkParts(text, clip);
    TokensNotes(clip, START, HOME, tokens, Ineffective);
    NotedSomewhere(clip, HOME, tokens, Ineffective);
    TokensNotes(clip, START, HOME, tokens, VelocityOffStep);
    NotedSomewhere(clip, HOME, tokens, VelocityOffStep);
    forall x, y
      ensures NearEdge(x, y) in Validation(text, clip).warnings <==> PassesEdge(clip, Courses(HOME, tokens).marks, x, y)
    {
      TokensNotes(clip, START, HOME, tokens, NearEdge(x, y));
      NotedEdges(clip, HOME, tokens, x, y);
    }
    TokensNotes(clip, START, HOME, tokens, EndsPenDown);
    TokensNotes(clip, START, HOME, tokens, EndsPenHeld);
    NeverNoted(clip, HOME, tokens);
    PenLeft(clip, START, tokens, 0.0);
  }

  lemma OkParts(text: string, clip: Option<Clip>)
    requires Ok(text, clip)
    ensures var run := CheckAll(clip, START, Kinds(Tokens(text)));
      && run.report.errors == []
      && forall a :: a in Validation(text, clip).warnings <==>
           || a in run.report.warnings
           || (a == EndsPenDown && run.state.penDown)
           || (a == EndsPenHeld && run.state.pen != 0.0)
  {
    hide CheckAll, Kinds, Tokens, ControlErrors;
    SplitVerdict.ValidationParts(text, clip);
  }

  lemma {:induction false} NeverNoted(clip: Option<Clip>, t: Turtle, tokens: seq<string>)
    ensures !Noted(clip, t, tokens, EndsPenDown) && !Noted(clip, t, tokens, EndsPenHeld)
    decreases |tokens|
  {
    hide Course;
    if tokens != [] {
      NeverNoted(clip, Course(t, tokens[0]).end, tokens[1..]);
    }
  }
}
