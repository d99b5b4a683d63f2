/** What an accepted payload guarantees. */
module Soundness {
  import opened Text
  import opened Numbers
  import opened Device
  import opened Hpgl
  import opened Validator
  import S = Streamer

  // ---- initialisation and queries -----------------------------------------------------

  /** The plotter reads the unstripped token; an output instruction it would recognise is one
      the validator recognises. */
  lemma PlotterSeesNoMore(raw: string)
    requires IsOutput(Mnemonic(raw))
    ensures OpOf(raw) == Mnemonic(raw) && HasMnemonic(Strip(raw))
  {
    var t := StripRight(raw);
    assert UpperChar(raw[0]) == Mnemonic(raw)[0] && UpperChar(raw[1]) == Mnemonic(raw)[1];
    StripRightKeeps(raw);
  }

  /** An instruction checked without error is blank or allowed, and IN and DF come first. */
  lemma KindRefuses(clip: Option<Clip>, s: Tracker, kind: Kind)
    requires CheckKind(clip, s, kind).report.errors == []
    ensures !kind.Refused? && (kind.Init? ==> !s.seenBody)
    ensures s.seenBody || kind.Body? ==> CheckKind(clip, s, kind).state.seenBody
  {
  }

  /** The first instruction of an error-free list, and the state for the others. */
  lemma HeadPasses(clip: Option<Clip>, s: Tracker, kinds: seq<Kind>) returns (next: Tracker)
    requires kinds != [] && CheckAll(clip, s, kinds).report.errors == []
    ensures CheckAll(clip, next, kinds[1..]).report.errors == []
    ensures !kinds[0].Refused? && (kinds[0].Init? ==> !s.seenBody)
    ensures s.seenBody || kinds[0].Body? ==> next.seenBody
  {
    KindRefuses(clip, s, kinds[0]);
    next := CheckKind(clip, s, kinds[0]).state;
  }

  lemma {:induction false} NoInitLater(clip: Option<Clip>, s: Tracker, kinds: seq<Kind>, j: nat)
    requires s.seenBody && CheckAll(clip, s, kinds).report.errors == [] && j < |kinds|
    ensures !kinds[j].Init?
    decreases |kinds|
  {
    var next := HeadPasses(clip, s, kinds);
    if j > 0 {
      NoInitLater(clip, next, kinds[1..], j - 1);
    }
  }

  lemma {:induction false} InitsLeadKinds(clip: Option<Clip>, s: Tracker, kinds: seq<Kind>, i: nat, j: nat)
    requires CheckAll(clip, s, kinds).report.errors == [] && i < j < |kinds| && kinds[i].Body?
    ensures !kinds[j].Init?
    decreases |kinds|
  {
    var next := HeadPasses(clip, s, kinds);
    if i == 0 {
      NoInitLater(clip, next, kinds[1..], j - 1);
    } else {
      InitsLeadKinds(clip, next, kinds[1..], i - 1, j - 1);
    }
  }

  lemma {:induction false} NoneRefused(clip: Option<Clip>, s: Tracker, kinds: seq<Kind>, j: nat)
    requires CheckAll(clip, s, kinds).report.errors == [] && j < |kinds|
    ensures !kinds[j].Refused?
    decreases |kinds|
  {
    var next := HeadPasses(clip, s, kinds);
    if j > 0 {
      NoneRefused(clip, next, kinds[1..], j - 1);
    }
  }

  /** An accepted payload initialises only at its start: no IN or DF after anything else. */
  lemma InitsLead(text: string, clip: Option<Clip>, i: nat, j: nat)
    requires Ok(text, clip) && i < j < |Tokens(text)| && KindOf(Tokens(text)[i]).Body?
    ensures !KindOf(Tokens(text)[j]).Init?
  {
    KindsAt(Tokens(text), i);
    KindsAt(Tokens(text), j);
    InitsLeadKinds(clip, START, Kinds(Tokens(text)), i, j);
  }

  lemma AllowedIsNoOutput(raw: string)
    requires !KindOf(raw).Refused?
    ensures !IsOutput(Mnemonic(raw))
  {
    if IsOutput(Mnemonic(raw)) {
      PlotterSeesNoMore(raw);
    }
  }

  lemma AcceptedTokenIsSilent(text: string, clip: Option<Clip>, j: nat)
    requires Ok(text, clip) && j < |Tokens(text)|
    ensures !IsOutput(Mnemonic(Tokens(text)[j] + ";"))
  {
    var raw := Tokens(text)[j];
    KindsAt(Tokens(text), j);
    NoneRefused(clip, START, Kinds(Tokens(text)), j);
    AllowedIsNoOutput(raw);
    TokenMnemonic(raw);
  }

  /** No instruction of an accepted payload makes the plotter answer. */
  lemma AcceptedNeverReplies(text: string, clip: Option<Clip>, j: nat, dev: Device)
    requires Ok(text, clip) && j < |Tokens(text)|
    ensures var e := Execute(dev, Tokens(text)[j] + ";"); e.Crash? || e.reply.None?
  {
    AcceptedTokenIsSilent(text, clip, j);
    OnlyOutputsReply(dev, Tokens(text)[j] + ";");
  }

  lemma TokenMnemonic(raw: string)
    ensures Mnemonic(raw + ";") == Mnemonic(raw) || !IsOutput(Mnemonic(raw + ";"))
  {
    if |raw| >= 2 {
      assert (raw + ";")[..2] == raw[..2];
    } else if |raw| == 1 {
      assert Mnemonic(raw + ";")[1] == ';';
    } else {
      assert |Mnemonic(raw + ";")| == 1;
    }
  }

  // ---- blank tails --------------------------------------------------------------------

  /** Blanks the validator lets pass anywhere. */
  predicate Harmless(c: char) { c == ' ' || c == '\t' || c == '\n' || c == '\r' }

  ghost predicate AllHarmless(s: string) { forall i :: 0 <= i < |s| ==> Harmless(s[i]) }

  lemma {:induction false} HarmlessStrips(s: string)
    requires AllHarmless(s)
    ensures Strip(s) == ""
  {
    if s != "" {
      HarmlessStrips(s[1..]);
    }
  }

  lemma {:induction false} HarmlessControls(text: string, tail: string, at: nat)
    requires at <= |text| && AllHarmless(tail)
    ensures ControlErrors(text + tail, at) == [] <==> ControlErrors(text, at) == []
    decreases |text| - at
  {
    if at < |text| {
      HarmlessControls(text, tail, at + 1);
    } else {
      HarmlessTail(text, tail, at);
    }
  }

  lemma {:induction false} HarmlessTail(text: string, tail: string, at: nat)
    requires |text| <= at <= |text + tail| && AllHarmless(tail)
    ensures ControlErrors(text + tail, at) == []
    decreases |text + tail| - at
  {
    if at < |text + tail| {
      assert (text + tail)[at] == tail[at - |text|];
      HarmlessTail(text, tail, at + 1);
    }
  }

  lemma {:induction false} SplitTail(parts: seq<string>, tail: string)
    requires parts != [] && forall i :: 0 <= i < |parts| ==> ';' !in parts[i]
    requires parts[|parts| - 1] == "" && ';' !in tail
    ensures Split(Join(parts, ';') + tail, ';') == parts[..|parts| - 1] + [tail]
    decreases |parts|
  {
    if |parts| == 1 {
      SplitPlain(tail, ';');
      assert parts[0] + tail == tail;
    } else {
      var rest := Join(parts[1..], ';');
      SplitTail(parts[1..], tail);
      SplitCons(parts[0], ';', rest + tail);
      assert parts[0] + ";" + rest + tail == parts[0] + ";" + (rest + tail);
      assert parts[..|parts| - 1] == [parts[0]] + parts[1..][..|parts| - 2];
    }
  }

  lemma TailSwapped(text: string, tail: string)
    requires Tail(text) == "" && AllHarmless(tail)
    ensures Tokens(text + tail) == Tokens(text) && Tail(text + tail) == tail
  {
    hide Split, Join;
    JoinSplit(text, ';');
    SplitTail(Split(text, ';'), tail);
  }

  /** Blanks behind the last terminator do not matter to the validator, up to the size cap.  With
      them the payload never streams. */
  lemma BlankTailPasses(text: string, clip: Option<Clip>, tail: string)
    requires Tail(text) == "" && AllHarmless(tail) && |text + tail| <= MAX_JOB_BYTES
    ensures Validation(text + tail, clip).errors == [] <==> Validation(text, clip).errors == []
  {
    TailSwapped(text, tail);
    HarmlessControls(text, tail, 0);
    HarmlessStrips(tail);
  }

  /** A trailing newline: accepted, and refused by the streamer whatever port and user do. */
  lemma NewlinePassesButNeverStreams(text: string, clip: Option<Clip>, cfg: S.Config, env: S.Env)
    requires Ok(text, clip) && Tail(text) == "" && |text| < MAX_JOB_BYTES
    ensures Ok(text + "\n", clip) && !S.Run(cfg, env, text + "\n", S.Start(S.FRESH_PORT)).0.Sent?
  {
    BlankTailPasses(text, clip, "\n");
    S.UnterminatedNeverCompletes(cfg, env, text + "\n", S.FRESH_PORT);
  }

  // ---- extents ------------------------------------------------------------------------

  /** The point is inside the clip, or at most `slack` units outside. */
  predicate Near(c: Clip, m: Mark, slack: real) {
    && c.xmin as real - slack <= m.x <= c.xmax as real + slack
    && c.ymin as real - slack <= m.y <= c.ymax as real + slack
  }

  ghost predicate AllNear(c: Clip, marks: seq<Mark>, slack: real) {
    forall i :: 0 <= i < |marks| ==> Near(c, marks[i], slack)
  }

  lemma ExtentMeans(c: Clip, m: Mark)
    ensures CheckExtent(Some(c), m.x, m.y).errors == [] <==> Near(c, m, CLIP_TOLERANCE)
    ensures CheckExtent(Some(c), m.x, m.y) == CLEAN <==> Near(c, m, 0.0)
  {
  }

  lemma AllNearCons(c: Clip, m: Mark, rest: seq<Mark>, slack: real)
    ensures AllNear(c, [m] + rest, slack) <==> Near(c, m, slack) && AllNear(c, rest, slack)
  {
    var all := [m] + rest;
    if AllNear(c, all, slack) {
      assert all[0] == m && all[1..] == rest;
      forall i | 0 <= i < |rest| ensures Near(c, rest[i], slack) {
        assert all[i + 1] == rest[i];
      }
    }
  }

  lemma ThenEmpty(a: Report, b: Report)
    ensures Then(a, b).errors == [] <==> a.errors == [] && b.errors == []
    ensures Then(a, b) == CLEAN <==> a == CLEAN && b == CLEAN
  {
    assert |Then(a, b).errors| == |a.errors| + |b.errors| && |Then(a, b).warnings| == |a.warnings| + |b.warnings|;
  }

  /** Tracking ends where the plot ends; it finds no error exactly when all points are within
      tolerance of the clip, and nothing at all exactly when all are inside. */
  ghost predicate TracksVisit(c: Clip, w: Walked, v: Drawing) {
    && w.x == v.end.x && w.y == v.end.y
    && (w.report.errors == [] <==> AllNear(c, v.marks, CLIP_TOLERANCE))
    && (w.report == CLEAN <==> AllNear(c, v.marks, 0.0))
  }

  lemma TracksNext(c: Clip, t': Turtle, rest: Walked, v: Drawing)
    requires TracksVisit(c, rest, v)
    ensures TracksVisit(c, Walked(rest.x, rest.y, Then(CheckExtent(Some(c), t'.x, t'.y), rest.report)),
                        Drawing([MarkOf(t')] + v.marks, v.end))
  {
    hide CheckExtent, AllNear, Near, Then;
    ExtentMeans(c, MarkOf(t'));
    ThenEmpty(CheckExtent(Some(c), t'.x, t'.y), rest.report);
    AllNearCons(c, MarkOf(t'), v.marks, CLIP_TOLERANCE);
    AllNearCons(c, MarkOf(t'), v.marks, 0.0);
  }

  /** Coordinate tracking visits exactly the points of the plot. */
  lemma {:induction false} WalkVisits(c: Clip, t: Turtle, nums: seq<real>)
    ensures TracksVisit(c, WalkPairs(Some(c), t.absolute, t.x, t.y, nums), Visit(t, nums))
    decreases |nums|
  {
    if |nums| >= 2 {
      var t' := StepTo(t, nums[0], nums[1]);
      WalkVisits(c, t', nums[2..]);
      var rest := WalkPairs(Some(c), t.absolute, t'.x, t'.y, nums[2..]);
      WalkCons(Some(c), t.absolute, t.x, t.y, nums, rest);
      TracksNext(c, t', rest, Visit(t', nums[2..]));
    }
  }

  /** Turtle and tracker agree on where the pen is and how coordinates are read. */
  predicate Aligned(t: Turtle, s: Tracker) { t.x == s.x && t.y == s.y && t.absolute == s.absolute }

  /** Arcs and the home move are outside the plot semantics. */
  predicate IsArc(op: string) { op == "AA" || op == "AR" || op == "HM" }

  lemma MotionStaysNear(c: Clip, t: Turtle, s: Tracker, op: string, args: string)
    requires Aligned(t, s) && IsMover(op) && CheckMotion(Some(c), s, op, args).report.errors == []
    ensures ParseNums(args).Some? && |ParseNums(args).value| % 2 == 0
    ensures var d := Visit(Prepared(t, op), ParseNums(args).value);
      AllNear(c, d.marks, CLIP_TOLERANCE) && Aligned(d.end, CheckMotion(Some(c), s, op, args).state)
  {
    var nums := ParseNums(args).value;
    WalkVisits(c, Prepared(t, op), nums);
    VisitKeepsModes(Prepared(t, op), nums);
  }

  lemma OtherBodyAligned(c: Clip, t: Turtle, s: Tracker, op: string, args: string)
    requires Aligned(t, s) && !IsMover(op) && !IsArc(op)
    ensures Aligned(t, CheckBody(Some(c), s, op, args).state)
  {
  }

  lemma KindDraws(t: Turtle, raw: string)
    ensures match KindOf(raw)
      case Blank => Draw(t, raw) == Drawing([], t)
      case Refused(_) => true
      case Init => Draw(t, raw) == Drawing([], t.(absolute := true, down := false))
      case Body(op, args) => Draw(t, raw) == DrawParts(t, op, ParseNums(args)) && !IsInit(op)
  {
    if Strip(raw) == "" {
      assert OpOf(raw) == "";
    }
  }

  lemma DrawStaysNear(c: Clip, t: Turtle, s: Tracker, kind: Kind, d: Drawing)
    requires Aligned(t, s) && CheckKind(Some(c), s, kind).report.errors == []
    requires match kind
      case Blank => d == Drawing([], t)
      case Refused(_) => true
      case Init => d == Drawing([], t.(absolute := true, down := false))
      case Body(op, args) => d == DrawParts(t, op, ParseNums(args)) && !IsInit(op) && !IsArc(op)
    ensures AllNear(c, d.marks, CLIP_TOLERANCE) && Aligned(d.end, CheckKind(Some(c), s, kind).state)
  {
    if kind.Body? {
      var s' := s.(seenBody := true);
      var body := CheckBody(Some(c), s', kind.op, kind.args);
      ThenEmpty(if IsIneffective(kind.op) then Note(Ineffective) else CLEAN, body.report);
      if IsMover(kind.op) {
        MotionStaysNear(c, t, s', kind.op, kind.args);
      } else {
        OtherBodyAligned(c, t, s', kind.op, kind.args);
      }
    }
  }

  lemma AllNearAppend(c: Clip, a: seq<Mark>, b: seq<Mark>, slack: real)
    requires AllNear(c, a, slack) && AllNear(c, b, slack)
    ensures AllNear(c, a + b, slack)
  {
  }

  ghost predicate NoArcs(tokens: seq<string>) {
    forall i :: 0 <= i < |tokens| ==> !IsArc(OpOf(tokens[i]))
  }

  lemma TokenStaysNear(c: Clip, t: Turtle, s: Tracker, raw: string)
    requires Aligned(t, s) && CheckKind(Some(c), s, KindOf(raw)).report.errors == [] && !IsArc(OpOf(raw))
    ensures AllNear(c, Draw(t, raw).marks, CLIP_TOLERANCE)
    ensures Aligned(Draw(t, raw).end, CheckKind(Some(c), s, KindOf(raw)).state)
  {
    KindDraws(t, raw);
    DrawStaysNear(c, t, s, KindOf(raw), Draw(t, raw));
  }

  lemma {:induction false} TokensStayNear(c: Clip, t: Turtle, s: Tracker, tokens: seq<string>)
    requires Aligned(t, s) && CheckAll(Some(c), s, Kinds(tokens)).report.errors == [] && NoArcs(tokens)
    ensures AllNear(c, DrawAll(t, tokens).marks, CLIP_TOLERANCE)
    decreases |tokens|
  {
    if tokens != [] {
      var first := CheckKind(Some(c), s, KindOf(tokens[0]));
      assert Kinds(tokens)[1..] == Kinds(tokens[1..]);
      ThenEmpty(first.report, CheckAll(Some(c), first.state, Kinds(tokens[1..])).report);
      TokenStaysNear(c, t, s, tokens[0]);
      var d := Draw(t, tokens[0]);
      TokensStayNear(c, d.end, first.state, tokens[1..]);
      AllNearAppend(c, d.marks, DrawAll(d.end, tokens[1..]).marks, CLIP_TOLERANCE);
    }
  }

  /** Every point an accepted payload draws or moves to is within tolerance of the paper. */
  lemma AcceptedStaysNear(text: string, c: Clip)
    requires Ok(text, Some(c)) && NoArcs(Tokens(text))
    ensures AllNear(c, Plot(text).marks, CLIP_TOLERANCE)
  {
    TokensStayNear(c, HOME, START, Tokens(text));
  }
}
