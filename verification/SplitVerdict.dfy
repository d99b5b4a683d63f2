/** Splitting long movers keeps the validator's verdict. */
module SplitVerdict {
  // On a text whose numbers the splitter finds only the size cap and dropped control characters
  // can change it; an accepted payload keeps its whole report, warnings included.

  import opened Text
  import opened Numbers
  import opened Device
  import opened Hpgl
  import opened PdSplit
  import opened Validator
  import Soundness

  // ---- one mover ----------------------------------------------------------------------

  /** What a mover with readable coordinates comes to. */
  function MoverOutcome(clip: Option<Clip>, s: Tracker, op: string, nums: seq<real>): Checked {
    if AnyUnreasonable(nums) then Checked(Moded(s, op), Fail(Unreasonable))
    else
      var w := WalkPairs(clip, Moded(s, op).absolute, s.x, s.y, nums);
      Checked(Penned(Moded(s, op).(x := w.x, y := w.y), op), w.report)
  }

  lemma MotionKind(raw: string, op: string, args: string)
    requires OpOf(raw) == op && IsMover(op) && ArgsOf(raw) == args && HasMnemonic(Strip(raw))
    ensures KindOf(raw) == Body(op, args)
  {
    MotionAllowed(op);
  }

  lemma MoverKind(head: string, pairs: seq<Pair>)
    requires (head == "PU" || head == "PD" || head == "PA") && PlainPairs(pairs)
    ensures KindOf(head + PairsText(pairs)) == Body(head, PairsText(pairs))
  {
    MoverParts(head, pairs);
    MotionKind(head + PairsText(pairs), head, PairsText(pairs));
  }

  lemma MoverHasMnemonic(head: string, args: string)
    requires head == "PU" || head == "PD" || head == "PA"
    requires args == "" || !IsBlank(args[|args| - 1])
    ensures HasMnemonic(Strip(head + args))
  {
    var raw := head + args;
    assert raw[0] == head[0] && raw[1] == head[1];
    assert args != "" ==> raw[|raw| - 1] == args[|args| - 1];
    StripTidy(raw);
  }

  lemma MoverParts(head: string, pairs: seq<Pair>)
    requires (head == "PU" || head == "PD" || head == "PA") && PlainPairs(pairs)
    ensures var raw := head + PairsText(pairs);
      OpOf(raw) == head && ArgsOf(raw) == PairsText(pairs) && HasMnemonic(Strip(raw))
  {
    MoverReads(head, pairs);
    if pairs != [] {
      PairsTextEnds(pairs);
    }
    MoverHasMnemonic(head, PairsText(pairs));
  }

  lemma MotionOutcome(clip: Option<Clip>, s: Tracker, op: string, args: string, nums: seq<real>)
    requires ParseNums(args) == Some(nums) && |nums| % 2 == 0
    ensures CheckMotion(clip, s, op, args) == MoverOutcome(clip, s, op, nums)
  {
  }

  lemma CheckMover(clip: Option<Clip>, s: Tracker, head: string, pairs: seq<Pair>)
    requires (head == "PU" || head == "PD" || head == "PA") && PlainPairs(pairs)
    ensures CheckKind(clip, s, Body(head, PairsText(pairs))) ==
      MoverOutcome(clip, s.(seenBody := true), head, Values(pairs))
  {
    ParsePairs(pairs);
    EvenLength(pairs);
    MotionBody(clip, s, head, PairsText(pairs));
    MotionOutcome(clip, s.(seenBody := true), head, PairsText(pairs), Values(pairs));
  }

  // ---- a mover in groups --------------------------------------------------------------

  lemma {:induction false} WalkAppend(clip: Option<Clip>, absolute: bool, x: real, y: real, a: seq<real>, b: seq<real>)
    requires |a| % 2 == 0
    ensures var first := WalkPairs(clip, absolute, x, y, a);
      var second := WalkPairs(clip, absolute, first.x, first.y, b);
      WalkPairs(clip, absolute, x, y, a + b) == Walked(second.x, second.y, Then(first.report, second.report))
    decreases |a|
  {
    if a == [] {
      assert a + b == b;
      ThenAssociates(WalkPairs(clip, absolute, x, y, b).report, CLEAN, CLEAN);
    } else {
      var all := a + b;
      assert all[2..] == a[2..] + b && all[0] == a[0] && all[1] == a[1];
      var nx, ny := Stop(absolute, x, a[0]), Stop(absolute, y, a[1]);
      WalkAppend(clip, absolute, nx, ny, a[2..], b);
      var rest := WalkPairs(clip, absolute, nx, ny, a[2..]);
      WalkCons(clip, absolute, x, y, a, rest);
      WalkCons(clip, absolute, x, y, all, WalkPairs(clip, absolute, nx, ny, a[2..] + b));
      ThenAssociates(CheckExtent(clip, nx, ny), rest.report, WalkPairs(clip, absolute, rest.x, rest.y, b).report);
    }
  }

  lemma UnreasonableAppend(a: seq<real>, b: seq<real>)
    ensures AnyUnreasonable(a + b) <==> AnyUnreasonable(a) || AnyUnreasonable(b)
  {
    var all := a + b;
    if AnyUnreasonable(a) {
      var i :| 0 <= i < |a| && Abs(a[i]) > ABSURD;
      assert all[i] == a[i];
    }
    if AnyUnreasonable(b) {
      var i :| 0 <= i < |b| && Abs(b[i]) > ABSURD;
      assert all[|a| + i] == b[i];
    }
  }

  /** A mover whose coordinates are cut in two. */
  lemma MoverAppend(clip: Option<Clip>, s: Tracker, head: string, a: seq<real>, b: seq<real>)
    requires (head == "PU" || head == "PD") && |a| % 2 == 0 && s.seenBody
    requires !AnyUnreasonable(a + b)
    ensures var first := MoverOutcome(clip, s, head, a);
      var second := MoverOutcome(clip, first.state, head, b);
      MoverOutcome(clip, s, head, a + b) == Checked(second.state, Then(first.report, second.report))
  {
    UnreasonableAppend(a, b);
    WalkAppend(clip, s.absolute, s.x, s.y, a, b);
  }

  lemma {:induction false} CheckGroups(clip: Option<Clip>, s: Tracker, head: string, groups: seq<seq<Pair>>)
    requires (head == "PD" || head == "PU") && PlainPairs(Flatten(groups))
    requires groups != [] || Penned(s.(seenBody := true), head) == s
    ensures var all := Values(Flatten(groups));
      var c := CheckAll(clip, s, Kinds(Render(head, groups)));
      if AnyUnreasonable(all) then c.report.errors != []
      else c == MoverOutcome(clip, s.(seenBody := true), head, all)
    decreases |groups|
  {
    hide KindOf, CheckExtent, Value;
    if groups != [] {
      FlattenPlain(groups);
      var a, b := Values(groups[0]), Values(Flatten(groups[1..]));
      ValuesAppend(groups[0], Flatten(groups[1..]));
      EvenLength(groups[0]);
      UnreasonableAppend(a, b);
      MoverKind(head, groups[0]);
      CheckMover(clip, s, head, groups[0]);
      var s' := s.(seenBody := true);
      var first := MoverOutcome(clip, s', head, a);
      assert Render(head, groups) == [head + PairsText(groups[0])] + Render(head, groups[1..]);
      KindsCons(head + PairsText(groups[0]), Render(head, groups[1..]));
      var rest := CheckAll(clip, first.state, Kinds(Render(head, groups[1..])));
      Soundness.ThenEmpty(first.report, rest.report);
      if !AnyUnreasonable(a) {
        CheckGroups(clip, first.state, head, groups[1..]);
        if !AnyUnreasonable(b) {
          MoverAppend(clip, s', head, a, b);
        }
      }
    }
  }

  lemma KindsCons(t: string, tokens: seq<string>)
    ensures Kinds([t] + tokens) == [KindOf(t)] + Kinds(tokens)
    ensures ([KindOf(t)] + Kinds(tokens))[1..] == Kinds(tokens)
  {
    assert ([t] + tokens)[1..] == tokens;
  }

  // ---- the whole payload --------------------------------------------------------------

  /** Both fail, or both come to exactly the same. */
  ghost predicate SameOutcome(a: Checked, b: Checked) {
    (a.report.errors == [] || b.report.errors == []) ==> a == b
  }

  /** A clean long command: the groups it is cut into, and how the validator reads it. */
  lemma CleanGroups(cmd: string, max: nat) returns (groups: seq<seq<Pair>>)
    requires Clean(cmd, max) && IsLong(cmd, max) && max >= 2
    ensures cmd[..2] == "PD" || cmd[..2] == "PU"
    ensures SplitCommand(cmd, max) == Render(cmd[..2], groups) && groups != [] && PlainPairs(Flatten(groups))
    ensures ParseNums(ArgsOf(cmd)) == Some(Values(Flatten(groups))) && |Values(Flatten(groups))| % 2 == 0
    ensures KindOf(cmd) == Body(cmd[..2], ArgsOf(cmd))
  {
    groups := SplitGroups(cmd, max);
    EvenLength(FoundPairs(cmd));
    LongOp(cmd, max);
    MoverOp(cmd);
    var t := StripRight(cmd);
    assert t[0] == cmd[..2][0] && t[1] == cmd[..2][1];
    MotionKind(cmd, cmd[..2], ArgsOf(cmd));
  }

  lemma CommandChecksTheSame(clip: Option<Clip>, s: Tracker, cmd: string, max: nat)
    requires Clean(cmd, max) && max >= 2
    ensures SameOutcome(CheckAll(clip, s, Kinds(SplitCommand(cmd, max))), CheckKind(clip, s, KindOf(cmd)))
  {
    if IsLong(cmd, max) {
      LongChecksTheSame(clip, s, cmd, max);
    } else {
      KindsCons(cmd, []);
      assert [cmd] + [] == [cmd];
      ThenAssociates(CheckKind(clip, s, KindOf(cmd)).report, CLEAN, CLEAN);
    }
  }

  lemma LongChecksTheSame(clip: Option<Clip>, s: Tracker, cmd: string, max: nat)
    requires Clean(cmd, max) && IsLong(cmd, max) && max >= 2
    ensures SameOutcome(CheckAll(clip, s, Kinds(SplitCommand(cmd, max))), CheckKind(clip, s, KindOf(cmd)))
  {
    var head := cmd[..2];
    var groups := CleanGroups(cmd, max);
    var nums := Values(Flatten(groups));
    CheckGroups(clip, s, head, groups);
    MotionBody(clip, s, head, ArgsOf(cmd));
    MotionOutcome(clip, s.(seenBody := true), head, ArgsOf(cmd), nums);
  }

  lemma {:induction false} CheckAllAppend(clip: Option<Clip>, s: Tracker, a: seq<Kind>, b: seq<Kind>)
    ensures var first := CheckAll(clip, s, a);
      var second := CheckAll(clip, first.state, b);
      CheckAll(clip, s, a + b) == Checked(second.state, Then(first.report, second.report))
    decreases |a|
  {
    if a == [] {
      assert a + b == b;
      ThenAssociates(CheckAll(clip, s, b).report, CLEAN, CLEAN);
    } else {
      assert (a + b)[1..] == a[1..] + b && (a + b)[0] == a[0];
      var one := CheckKind(clip, s, a[0]);
      CheckAllAppend(clip, one.state, a[1..], b);
      var rest := CheckAll(clip, one.state, a[1..]);
      ThenAssociates(one.report, rest.report, CheckAll(clip, rest.state, b).report);
    }
  }

  lemma {:induction false} KindsAppend(a: seq<string>, b: seq<string>)
    ensures Kinds(a + b) == Kinds(a) + Kinds(b)
  {
    if a == [] {
      assert a + b == b;
    } else {
      KindsAppend(a[1..], b);
      assert a + b == [a[0]] + (a[1..] + b);
      KindsCons(a[0], a[1..] + b);
    }
  }

  ghost predicate AllClean(parts: seq<string>, max: nat) {
    forall i :: 0 <= i < |parts| ==> Clean(parts[i], max)
  }

  lemma SameThen(a: Checked, b: Checked, ra: Checked, rb: Checked)
    requires SameOutcome(a, b) && (a.report.errors == [] ==> SameOutcome(ra, rb))
    ensures SameOutcome(Checked(ra.state, Then(a.report, ra.report)), Checked(rb.state, Then(b.report, rb.report)))
  {
    Soundness.ThenEmpty(a.report, ra.report);
    Soundness.ThenEmpty(b.report, rb.report);
  }

  lemma {:induction false} PartsCheckTheSame(clip: Option<Clip>, s: Tracker, parts: seq<string>, max: nat)
    requires AllClean(parts, max) && max >= 2
    ensures SameOutcome(CheckAll(clip, s, Kinds(SplitParts(parts, max))), CheckAll(clip, s, Kinds(parts)))
    decreases |parts|
  {
    if parts != [] {
      var pieces, rest := SplitCommand(parts[0], max), SplitParts(parts[1..], max);
      CommandChecksTheSame(clip, s, parts[0], max);
      KindsAppend(pieces, rest);
      CheckAllAppend(clip, s, Kinds(pieces), Kinds(rest));
      var a, b := CheckAll(clip, s, Kinds(pieces)), CheckKind(clip, s, KindOf(parts[0]));
      if a.report.errors == [] {
        PartsCheckTheSame(clip, a.state, parts[1..], max);
      }
      assert Kinds(parts)[1..] == Kinds(parts[1..]);
      SameThen(a, b, CheckAll(clip, a.state, Kinds(rest)), CheckAll(clip, b.state, Kinds(parts[1..])));
    }
  }

  // ---- control characters -------------------------------------------------------------

  predicate IsControl(c: char) { c < ' ' && c != '\t' && c != '\n' && c != '\r' }

  ghost predicate Quiet(s: string) { forall i :: 0 <= i < |s| ==> !IsControl(s[i]) }

  ghost predicate AllQuiet(parts: seq<string>) { forall i :: 0 <= i < |parts| ==> Quiet(parts[i]) }

  lemma {:induction false} ControlsMean(text: string, at: nat)
    requires at <= |text|
    ensures ControlErrors(text, at) == [] <==> forall i :: at <= i < |text| ==> !IsControl(text[i])
    decreases |text| - at
  {
    if at < |text| {
      ControlsMean(text, at + 1);
    }
  }

  lemma QuietAppend(a: string, b: string)
    ensures Quiet(a + b) <==> Quiet(a) && Quiet(b)
  {
    var s := a + b;
    if Quiet(s) {
      forall i | 0 <= i < |a| ensures !IsControl(a[i]) { assert s[i] == a[i]; }
      forall i | 0 <= i < |b| ensures !IsControl(b[i]) { assert s[|a| + i] == b[i]; }
    }
  }

  lemma AllQuietCons(part: string, parts: seq<string>)
    ensures AllQuiet([part] + parts) <==> Quiet(part) && AllQuiet(parts)
  {
    var all := [part] + parts;
    if AllQuiet(all) {
      assert Quiet(all[0]);
      forall i | 0 <= i < |parts| ensures Quiet(parts[i]) { assert all[i + 1] == parts[i]; }
    }
  }

  lemma {:induction false} AllQuietAppend(a: seq<string>, b: seq<string>)
    ensures AllQuiet(a + b) <==> AllQuiet(a) && AllQuiet(b)
  {
    if a == [] {
      assert a + b == b;
    } else {
      AllQuietAppend(a[1..], b);
      AllQuietCons(a[0], a[1..]);
      AllQuietCons(a[0], a[1..] + b);
      assert a + b == [a[0]] + (a[1..] + b) && [a[0]] + a[1..] == a;
    }
  }

  lemma {:induction false} JoinQuiet(parts: seq<string>)
    ensures Quiet(Join(parts, ';')) <==> AllQuiet(parts)
  {
    if |parts| > 1 {
      var rest := Join(parts[1..], ';');
      JoinQuiet(parts[1..]);
      QuietAppend(parts[0] + [';'], rest);
      QuietAppend(parts[0], [';']);
      AllQuietCons(parts[0], parts[1..]);
      assert [parts[0]] + parts[1..] == parts;
    }
  }

  lemma {:induction false} PairsAreQuiet(pairs: seq<Pair>)
    requires PlainPairs(pairs)
    ensures Quiet(PairsText(pairs))
  {
    if pairs != [] {
      var p := pairs[0];
      assert PlainPair(p);
      PlainCharacters(p.x);
      PlainCharacters(p.y);
      QuietAppend(p.x, "," + p.y);
      QuietAppend(",", p.y);
      assert PairText(p) == p.x + ("," + p.y);
      PairsAreQuiet(pairs[1..]);
      QuietAppend(PairText(p) + ",", PairsText(pairs[1..]));
      QuietAppend(PairText(p), ",");
    }
  }

  lemma {:induction false} RenderIsQuiet(head: string, groups: seq<seq<Pair>>)
    requires Quiet(head) && PlainPairs(Flatten(groups))
    ensures AllQuiet(Render(head, groups))
    decreases |groups|
  {
    if groups != [] {
      FlattenPlain(groups);
      PairsAreQuiet(groups[0]);
      QuietAppend(head, PairsText(groups[0]));
      RenderIsQuiet(head, groups[1..]);
      AllQuietCons(head + PairsText(groups[0]), Render(head, groups[1..]));
    }
  }

  lemma CommandQuiet(cmd: string, max: nat)
    requires max >= 2 && Quiet(cmd)
    ensures AllQuiet(SplitCommand(cmd, max))
  {
    if IsLong(cmd, max) {
      var groups := SplitGroups(cmd, max);
      RenderIsQuiet(cmd[..2], groups);
    }
  }

  lemma {:induction false} PartsQuiet(parts: seq<string>, max: nat)
    requires AllQuiet(parts) && max >= 2
    ensures AllQuiet(SplitParts(parts, max))
    decreases |parts|
  {
    if parts != [] {
      CommandQuiet(parts[0], max);
      PartsQuiet(parts[1..], max);
      AllQuietAppend(SplitCommand(parts[0], max), SplitParts(parts[1..], max));
    }
  }

  lemma SplitQuiet(text: string, max: nat)
    requires max >= 2 && ControlErrors(text, 0) == []
    ensures ControlErrors(SplitLong(text, max), 0) == []
  {
    var parts := Split(text, ';');
    ControlsMean(text, 0);
    ControlsMean(SplitLong(text, max), 0);
    JoinSplit(text, ';');
    JoinQuiet(parts);
    PartsQuiet(parts, max);
    JoinQuiet(SplitParts(parts, max));
  }

  // ---- the unterminated tail ----------------------------------------------------------

  lemma {:induction false} RenderLast(head: string, groups: seq<seq<Pair>>)
    requires groups != []
    ensures var r := Render(head, groups); r != [] && head <= r[|r| - 1]
  {
    if |groups| > 1 {
      RenderLast(head, groups[1..]);
    }
  }

  lemma MoverIsNotBlank(t: string)
    requires "PD" <= t || "PU" <= t
    ensures Strip(t) != ""
  {
    StripRightKeeps(t);
  }

  /** The tail of a split text is the last piece of its tail. */
  lemma TailOfSplit(text: string, max: nat)
    requires max >= 2 && SplitCommand(Tail(text), max) != []
    ensures var pieces := SplitCommand(Tail(text), max); Tail(SplitLong(text, max)) == pieces[|pieces| - 1]
  {
    hide Split, Join, SplitParts, SplitCommand;
    var parts := Split(text, ';');
    assert parts == Tokens(text) + [Tail(text)];
    SplitPartsSnoc(Tokens(text), Tail(text), max);
    SplitPartsUndivided(parts, max);
    SplitJoin(SplitParts(parts, max), ';');
  }

  /** A long unterminated tail stays an unterminated tail. */
  lemma LongTail(text: string, max: nat)
    requires max >= 2 && AllClean(Split(text, ';'), max) && IsLong(Tail(text), max)
    ensures TailErrors(text) != [] && TailErrors(SplitLong(text, max)) != []
  {
    hide Split, Strip, SplitLong, SplitCommand, Tokens;
    MoverIsNotBlank(Tail(text));
    LongTailPiece(Tail(text), max);
    TailOfSplit(text, max);
  }

  /** The last piece of a long mover is a mover again. */
  lemma LongTailPiece(tail: string, max: nat)
    requires max >= 2 && Clean(tail, max) && IsLong(tail, max)
    ensures var pieces := SplitCommand(tail, max); pieces != [] && Strip(pieces[|pieces| - 1]) != ""
  {
    var groups := CleanGroups(tail, max);
    RenderLast(tail[..2], groups);
    var pieces := SplitCommand(tail, max);
    MoverIsNotBlank(pieces[|pieces| - 1]);
  }

  // ---- the verdict --------------------------------------------------------------------

  lemma TokensAreClean(text: string, max: nat)
    requires AllClean(Split(text, ';'), max)
    ensures AllClean(Tokens(text), max)
  {
  }

  /** What the report is made of, once size and control characters are in order. */
  lemma ValidationParts(text: string, clip: Option<Clip>)
    requires |text| <= MAX_JOB_BYTES && ControlErrors(text, 0) == []
    ensures var run := CheckAll(clip, START, Kinds(Tokens(text)));
      && Validation(text, clip) == Then(Report(TailErrors(text), []), Then(run.report, Report([], Ending(run.state))))
      && (Ok(text, clip) <==> TailErrors(text) == [] && run.report.errors == [])
  {
    var run := CheckAll(clip, START, Kinds(Tokens(text)));
    Soundness.ThenEmpty(run.report, Report([], Ending(run.state)));
    Soundness.ThenEmpty(Report(TailErrors(text), []), Then(run.report, Report([], Ending(run.state))));
  }

  /** Within the size cap and without control characters splitting keeps the verdict, and an
      accepted payload its whole report. */
  lemma SplitWithinCap(text: string, clip: Option<Clip>, max: nat)
    requires max >= 2 && AllClean(Split(text, ';'), max)
    requires |text| <= MAX_JOB_BYTES && |SplitLong(text, max)| <= MAX_JOB_BYTES && ControlErrors(text, 0) == []
    ensures Ok(SplitLong(text, max), clip) <==> Ok(text, clip)
    ensures Ok(text, clip) ==> Validation(SplitLong(text, max), clip) == Validation(text, clip)
  {
    var out := SplitLong(text, max);
    SplitQuiet(text, max);
    ValidationParts(text, clip);
    ValidationParts(out, clip);
    if IsLong(Tail(text), max) {
      LongTail(text, max);
    } else {
      SplitLongTokens(text, max);
      TokensAreClean(text, max);
      PartsCheckTheSame(clip, START, Tokens(text), max);
    }
  }

  lemma RefusedAtOnce(text: string, clip: Option<Clip>)
    requires |text| > MAX_JOB_BYTES || ControlErrors(text, 0) != []
    ensures !Ok(text, clip)
  {
  }

  /** Splitting keeps the verdict whenever the numbers survive.  It can lengthen a text past the
      size cap, and drop blanks, some of which count as control characters or against the cap:
      those are exactly the exceptions.  An accepted payload that fits keeps its whole report. */
  lemma SplitPreservesVerdict(text: string, clip: Option<Clip>, max: nat)
    requires max >= 2 && AllClean(Split(text, ';'), max)
    ensures var out := SplitLong(text, max);
      (Ok(text, clip) && |out| <= MAX_JOB_BYTES) <==>
        (Ok(out, clip) && |text| <= MAX_JOB_BYTES && ControlErrors(text, 0) == [])
    ensures Ok(text, clip) && |SplitLong(text, max)| <= MAX_JOB_BYTES ==>
      Validation(SplitLong(text, max), clip) == Validation(text, clip)
  {
    var out := SplitLong(text, max);
    if |text| > MAX_JOB_BYTES || ControlErrors(text, 0) != [] {
      RefusedAtOnce(text, clip);
    } else if |out| > MAX_JOB_BYTES {
      RefusedAtOnce(out, clip);
    } else {
      SplitWithinCap(text, clip, max);
    }
  }
}
