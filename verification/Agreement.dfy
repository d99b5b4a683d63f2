/** Validator and plotter agree. */
module Agreement {
  // A payload without extent findings is executed without any clamping, and at every moment the
  // pen is where the validator tracked it.

  import opened Text
  import opened Numbers
  import opened Device
  import opened Emulator
  import Relative
  import opened Hpgl
  import opened Validator
  import Soundness
  import opened SplitVerdict

  // ---- scripts as payloads ------------------------------------------------------------

  function Texts(instrs: seq<Instr>): (r: seq<string>)
    ensures |r| == |instrs|
  {
    if instrs == [] then [] else [TextOf(instrs[0])] + Texts(instrs[1..])
  }

  lemma {:induction false} ScriptIsTerminated(instrs: seq<Instr>)
    ensures Script(instrs) == Terminate(Texts(instrs))
  {
    if instrs != [] {
      ScriptIsTerminated(instrs[1..]);
    }
  }

  lemma {:induction false} TextsUndivided(instrs: seq<Instr>)
    requires forall i :: 0 <= i < |instrs| ==> ';' !in TextOf(instrs[i])
    ensures forall i :: 0 <= i < |instrs| ==> ';' !in Texts(instrs)[i]
  {
    if instrs != [] {
      TextsUndivided(instrs[1..]);
    }
  }

  /** The instructions of a program's text are the program. */
  lemma ScriptTokens(instrs: seq<Instr>)
    requires forall i :: 0 <= i < |instrs| ==> ';' !in TextOf(instrs[i])
    ensures Tokens(Script(instrs)) == Texts(instrs) && Tail(Script(instrs)) == ""
  {
    ScriptIsTerminated(instrs);
    TextsUndivided(instrs);
    SplitTerminate(Texts(instrs));
  }

  lemma ProgramUndivided(instrs: seq<Instr>)
    requires Program(instrs)
    ensures forall i :: 0 <= i < |instrs| ==> ';' !in TextOf(instrs[i])
  {
    forall i | 0 <= i < |instrs| ensures ';' !in TextOf(instrs[i]) {
      assert WellFormed(instrs[i]);
      TextHasNoTerminator(instrs[i]);
    }
  }

  // ---- one instruction ----------------------------------------------------------------

  /** The validator sees motion in an instruction: coordinates of a mover or an arc, or a home move. */
  predicate SeesMotion(text: string) {
    var kind := KindOf(text);
    kind.Body? &&
      (kind.op == "AA" || kind.op == "AR" || kind.op == "HM" ||
       (IsMover(kind.op) && ParseNums(kind.args) != Some([])))
  }

  lemma AbsoluteKind(clip: Option<Clip>, s: Tracker, kind: Kind)
    requires s.absolute && (kind.Body? ==> kind.op != "PR")
    ensures CheckKind(clip, s, kind).state.absolute
  {
    hide IsAllowed, IsQuery;
    if kind.Body? && IsMover(kind.op) {
      MotionBody(clip, s, kind.op, kind.args);
    }
  }

  /** Without relative movers the validator stays in absolute mode. */
  lemma AbsoluteStays(clip: Option<Clip>, s: Tracker, text: string)
    requires s.absolute && OpOf(text) != "PR"
    ensures CheckKind(clip, s, KindOf(text)).state.absolute
  {
    hide CheckKind, IsAllowed, IsQuery;
    AbsoluteKind(clip, s, KindOf(text));
  }

  lemma StillMover(clip: Option<Clip>, s: Tracker, op: string, args: string)
    requires IsMover(op) && ParseNums(args) == Some([])
    ensures var after := CheckKind(clip, s, Body(op, args)).state; after.x == s.x && after.y == s.y
  {
    hide IsAllowed, IsQuery;
    MotionBody(clip, s, op, args);
  }

  /** Where it sees no motion, it tracks none. */
  lemma NoMotionSeen(clip: Option<Clip>, s: Tracker, text: string)
    requires !SeesMotion(text)
    ensures var after := CheckKind(clip, s, KindOf(text)).state; after.x == s.x && after.y == s.y
  {
    hide IsAllowed, IsQuery, KindOf;
    var kind := KindOf(text);
    if kind.Body? && IsMover(kind.op) {
      StillMover(clip, s, kind.op, kind.args);
    }
  }

  lemma ExecuteStill(dev: Device, token: string)
    requires IsMover(Mnemonic(token)) ==> Params(token) == ""
    ensures var e := Execute(dev, token);
      e.Effect? ==> e.dev.x == dev.x && e.dev.y == dev.y && e.dev.clip == dev.clip
  {
  }

  lemma ExecuteSelect(dev: Device, token: string)
    requires Mnemonic(token) == "SP"
    ensures Execute(dev, token).Effect?
  {
  }

  lemma BareParams(head: string)
    requires |head| == 2
    ensures Mnemonic(head + ";") == Upper(head) && Params(head + ";") == ""
  {
    assert Prefix(head + ";", 2) == head && Suffix(head + ";", 2) == ";";
    assert ";"[..0] == "" && TrimTerminator(";") == TrimTerminator("");
  }

  lemma BareToken(t: string)
    requires |t| <= 2 || !IsMover(Mnemonic(t))
    ensures IsMover(Mnemonic(t + ";")) ==> Params(t + ";") == ""
  {
    if |t| == 2 {
      BareParams(t);
    } else if |t| > 2 {
      assert Prefix(t + ";", 2) == Prefix(t, 2);
    } else if |t| == 1 {
      assert Mnemonic(t + ";")[1] == ';';
    }
  }

  /** The pen stands still at everything the plotter does not take for a mover with parameters. */
  lemma BareExecutes(dev: Device, i: Instr)
    requires i.Bare? && WellFormed(i)
    ensures var e := Execute(dev, i.text + ";");
      e.Effect? && e.dev.x == dev.x && e.dev.y == dev.y && e.dev.clip == dev.clip
  {
    hide Execute;
    CrashIsTextual(dev, PowerUp(A4_CLIP), i.text + ";");
    BareToken(i.text);
    ExecuteStill(dev, i.text + ";");
  }

  // ---- movers -------------------------------------------------------------------------

  /** Every coordinate pair is inside the clip. */
  ghost predicate PairsInClip(c: Clip, pairs: seq<Pair>)
    requires PlainPairs(pairs)
  {
    forall k :: 0 <= k < |pairs| ==> PlainPair(pairs[k]) && Relative.InClip(c, Value(pairs[k].x), Value(pairs[k].y))
  }

  lemma NoWalk(c: Clip, x: real, y: real)
    ensures WalkPairs(Some(c), true, x, y, []) == Walked(x, y, CLEAN)
  {
  }

  /** Nothing reported about an absolute mover: all its pairs are inside, and the tracker ends
      at the last one. */
  lemma {:induction false} CleanWalk(c: Clip, x: real, y: real, pairs: seq<Pair>)
    requires PlainPairs(pairs) && WalkPairs(Some(c), true, x, y, Values(pairs)).report == CLEAN
    ensures PairsInClip(c, pairs)
    ensures pairs != [] ==>
      (var last := pairs[|pairs| - 1];
       var w := WalkPairs(Some(c), true, x, y, Values(pairs));
       PlainPair(last) && w.x == Value(last.x) && w.y == Value(last.y))
    decreases |pairs|
  {
    hide WalkPairs, CheckExtent, Then, Value;
    if pairs != [] {
      var p := pairs[0];
      assert PlainPair(p);
      var vx, vy := Value(p.x), Value(p.y);
      var nums := Values(pairs);
      assert nums == [vx, vy] + Values(pairs[1..]) && nums[2..] == Values(pairs[1..]);
      var rest := WalkPairs(Some(c), true, vx, vy, nums[2..]);
      WalkCons(Some(c), true, x, y, nums, rest);
      Soundness.ThenEmpty(CheckExtent(Some(c), vx, vy), rest.report);
      Soundness.ExtentMeans(c, Mark(vx, vy, 0.0, false));
      NoWalk(c, vx, vy);
      CleanWalk(c, vx, vy, pairs[1..]);
      forall k | 0 <= k < |pairs|
        ensures PlainPair(pairs[k]) && Relative.InClip(c, Value(pairs[k].x), Value(pairs[k].y))
      {
        if k > 0 {
          assert pairs[1..][k - 1] == pairs[k];
        }
      }
    }
  }

  lemma TargetUnclamped(dev: Device, vx: real, vy: real)
    requires Relative.InClip(dev.clip, vx, vy)
    ensures Target(dev, vx, vy, false).x == vx && Target(dev, vx, vy, false).y == vy
  {
  }

  /** Pair by pair, every stop of a clean mover is exactly the coordinate written. */
  lemma NoStopIsClamped(dev: Device, head: string, pairs: seq<Pair>, j: nat)
    requires PlainPairs(pairs) && PairsInClip(dev.clip, pairs) && 0 < j <= |pairs|
    ensures PlainPairs(pairs[..j]) && PlainPair(pairs[j - 1])
    ensures var at := Touched(dev, head, pairs[..j]); at.x == Value(pairs[j - 1].x) && at.y == Value(pairs[j - 1].y)
  {
    PlainSlices(pairs, j);
    assert PlainPair(pairs[j - 1]);
    TargetUnclamped(PenSet(dev, head), Value(pairs[j - 1].x), Value(pairs[j - 1].y));
  }

  lemma OutcomeAgrees(c: Clip, s: Tracker, dev: Device, head: string, pairs: seq<Pair>)
    requires (head == "PU" || head == "PD" || head == "PA") && pairs != [] && PlainPairs(pairs)
    requires s.absolute && dev.clip == c && MoverOutcome(Some(c), s, head, Values(pairs)).report == CLEAN
    ensures PairsInClip(c, pairs)
    ensures var after := MoverOutcome(Some(c), s, head, Values(pairs)).state;
      var at := Touched(dev, head, pairs);
      at.x == after.x && at.y == after.y && after.absolute && at.clip == c
  {
    assert !AnyUnreasonable(Values(pairs));
    CleanWalk(c, s.x, s.y, pairs);
    assert pairs[..|pairs|] == pairs;
    NoStopIsClamped(dev, head, pairs, |pairs|);
  }

  lemma MoverKindOutcome(c: Clip, s: Tracker, i: Instr)
    requires i.Mover? && WellFormed(i)
    ensures CheckKind(Some(c), s, KindOf(TextOf(i))) ==
      MoverOutcome(Some(c), s.(seenBody := true), i.head, Values(i.pairs))
  {
    MoverKind(i.head, i.pairs);
    CheckMover(Some(c), s, i.head, i.pairs);
  }

  /** One clean mover brings validator and plotter to the same point, inside the clip. */
  lemma MoverAgrees(c: Clip, s: Tracker, dev: Device, i: Instr, after: Checked)
    requires i.Mover? && WellFormed(i) && s.absolute && dev.clip == c
    requires after == MoverOutcome(Some(c), s.(seenBody := true), i.head, Values(i.pairs)) && after.report == CLEAN
    ensures PairsInClip(c, i.pairs)
    ensures var at := Touched(dev, i.head, i.pairs);
      at.x == after.state.x && at.y == after.state.y && after.state.absolute && at.clip == c
  {
    OutcomeAgrees(c, s.(seenBody := true), dev, i.head, i.pairs);
  }

  // ---- whole programs -----------------------------------------------------------------

  /** The validator's verdict on a program's instructions. */
  ghost function Track(c: Clip, instrs: seq<Instr>): Checked {
    CheckAll(Some(c), START, Kinds(Texts(instrs)))
  }

  predicate HasMover(instrs: seq<Instr>) { exists i :: 0 <= i < |instrs| && instrs[i].Mover? }

  /** Both sides are at the same point, once any coordinate has been given. */
  ghost predicate InStep(c: Clip, instrs: seq<Instr>, dev: Device) {
    var s := Track(c, instrs).state;
    dev.clip == c && s.absolute && (HasMover(instrs) ==> dev.x == s.x && dev.y == s.y)
  }

  lemma {:induction false} TextsSnoc(instrs: seq<Instr>, i: Instr)
    ensures Texts(instrs + [i]) == Texts(instrs) + [TextOf(i)]
  {
    if instrs == [] {
      assert Texts([i]) == [TextOf(i)] + Texts([i][1..]);
    } else {
      assert (instrs + [i])[1..] == instrs[1..] + [i];
      TextsSnoc(instrs[1..], i);
    }
  }

  lemma TrackSnoc(c: Clip, instrs: seq<Instr>, i: Instr)
    ensures var before := Track(c, instrs);
      var one := CheckKind(Some(c), before.state, KindOf(TextOf(i)));
      Track(c, instrs + [i]) == Checked(one.state, Then(before.report, one.report))
  {
    TextsSnoc(instrs, i);
    KindsAppend(Texts(instrs), [TextOf(i)]);
    KindsCons(TextOf(i), []);
    assert [TextOf(i)] + [] == [TextOf(i)];
    CheckAllAppend(Some(c), START, Kinds(Texts(instrs)), Kinds([TextOf(i)]));
    var before := Track(c, instrs);
    ThenAssociates(CheckKind(Some(c), before.state, KindOf(TextOf(i))).report, CLEAN, CLEAN);
  }

  /** No relative movers, which would change the mode. */
  ghost predicate Absolute(instrs: seq<Instr>) {
    forall i :: 0 <= i < |instrs| ==> OpOf(TextOf(instrs[i])) != "PR"
  }

  /** One step: a mover brings both to the same point; at anything else the pen stands still. */
  lemma InstrAgrees(c: Clip, s: Tracker, i: Instr, r: Record)
    requires WellFormed(i) && s.absolute && r.dev.clip == c
    requires CheckKind(Some(c), s, KindOf(TextOf(i))).report == CLEAN
    ensures var after := CheckKind(Some(c), s, KindOf(TextOf(i))).state;
      var dev := Perform(r, i).dev;
      dev.clip == c &&
      if i.Mover? then dev.x == after.x && dev.y == after.y else dev.x == r.dev.x && dev.y == r.dev.y
  {
    if i.Mover? {
      MoverKindOutcome(c, s, i);
      MoverAgrees(c, s, r.dev, i, MoverOutcome(Some(c), s.(seenBody := true), i.head, Values(i.pairs)));
      PerformMover(r, i);
    } else {
      BareExecutes(r.dev, i);
    }
  }

  lemma CleanPrefix(c: Clip, instrs: seq<Instr>, i: Instr)
    requires Track(c, instrs + [i]).report == CLEAN
    ensures Track(c, instrs).report == CLEAN
    ensures CheckKind(Some(c), Track(c, instrs).state, KindOf(TextOf(i))).report == CLEAN
    ensures Track(c, instrs + [i]).state == CheckKind(Some(c), Track(c, instrs).state, KindOf(TextOf(i))).state
  {
    TrackSnoc(c, instrs, i);
    Soundness.ThenEmpty(Track(c, instrs).report, CheckKind(Some(c), Track(c, instrs).state, KindOf(TextOf(i))).report);
  }

  lemma PrefixStep(instrs: seq<Instr>, n: nat)
    requires n < |instrs|
    ensures instrs[..n + 1] == instrs[..n] + [instrs[n]]
  {
  }

  /** Every prefix of a program without findings has none, and ends in absolute mode. */
  lemma {:induction false} PrefixIsClean(c: Clip, instrs: seq<Instr>, n: nat)
    requires Track(c, instrs).report == CLEAN && Absolute(instrs) && n <= |instrs|
    ensures Track(c, instrs[..n]).report == CLEAN && Track(c, instrs[..n]).state.absolute
    decreases |instrs| - n
  {
    hide CheckAll, Kinds, Texts, CheckKind, OpOf;
    if n == |instrs| {
      assert instrs[..n] == instrs;
      AbsoluteProgram(c, instrs);
    } else {
      PrefixIsClean(c, instrs, n + 1);
      PrefixStep(instrs, n);
      CleanPrefix(c, instrs[..n], instrs[n]);
      AbsoluteProgram(c, instrs[..n]);
    }
  }

  lemma {:induction false} AbsoluteProgram(c: Clip, instrs: seq<Instr>)
    requires Absolute(instrs)
    ensures Track(c, instrs).state.absolute
    decreases |instrs|
  {
    hide CheckKind, KindOf, OpOf;
    if instrs != [] {
      var n := |instrs| - 1;
      PrefixStep(instrs, n);
      assert instrs[..n + 1] == instrs;
      AbsoluteProgram(c, instrs[..n]);
      TrackSnoc(c, instrs[..n], instrs[n]);
      AbsoluteStays(Some(c), Track(c, instrs[..n]).state, TextOf(instrs[n]));
    }
  }

  /** What one more instruction does to validator and plotter. */
  lemma StepFacts(c: Clip, instrs: seq<Instr>, r0: Record, n: nat)
    requires Program(instrs) && Absolute(instrs) && Track(c, instrs).report == CLEAN && n < |instrs|
    requires PerformAll(r0, instrs[..n]).dev.clip == c
    ensures var s := Track(c, instrs[..n + 1]).state;
      var before, after := PerformAll(r0, instrs[..n]).dev, PerformAll(r0, instrs[..n + 1]).dev;
      && after.clip == c
      && if instrs[n].Mover? then after.x == s.x && after.y == s.y else after.x == before.x && after.y == before.y
  {
    hide Execute, Perform, CheckKind, KindOf;
    PrefixIsClean(c, instrs, n);
    PrefixIsClean(c, instrs, n + 1);
    PrefixStep(instrs, n);
    CleanPrefix(c, instrs[..n], instrs[n]);
    assert WellFormed(instrs[n]);
    InstrAgrees(c, Track(c, instrs[..n]).state, instrs[n], PerformAll(r0, instrs[..n]));
    PerformNext(r0, instrs, n);
  }

  lemma {:induction false} ClipStays(c: Clip, instrs: seq<Instr>, r0: Record, n: nat)
    requires Program(instrs) && Absolute(instrs) && Track(c, instrs).report == CLEAN && n <= |instrs|
    requires r0.dev.clip == c
    ensures PerformAll(r0, instrs[..n]).dev.clip == c
  {
    if n > 0 {
      ClipStays(c, instrs, r0, n - 1);
      StepFacts(c, instrs, r0, n - 1);
    }
  }

  // ---- the exact condition ------------------------------------------------------------

  /** The validator tracks no motion at instruction `i`. */
  ghost predicate StaysPut(c: Clip, instrs: seq<Instr>, i: nat)
    requires i < |instrs|
  {
    var before, after := Track(c, instrs[..i]).state, Track(c, instrs[..i + 1]).state;
    after.x == before.x && after.y == before.y
  }

  /** Once a mover has been executed, the validator tracks no motion at an instruction the plotter
      does not take for a mover with parameters, be it a mover with a blank in front. */
  ghost predicate NoHiddenMotion(c: Clip, instrs: seq<Instr>) {
    forall i :: 0 <= i < |instrs| && instrs[i].Bare? && HasMover(instrs[..i]) ==> StaysPut(c, instrs, i)
  }

  /** Both sides are at the same point after every instruction. */
  ghost predicate AlwaysInStep(c: Clip, instrs: seq<Instr>, r0: Record) {
    forall n :: 0 <= n <= |instrs| ==> InStep(c, instrs[..n], PerformAll(r0, instrs[..n]).dev)
  }

  lemma HasMoverNext(instrs: seq<Instr>, n: nat)
    requires n < |instrs|
    ensures HasMover(instrs[..n + 1]) <==> HasMover(instrs[..n]) || instrs[n].Mover?
  {
    var more := instrs[..n + 1];
    PrefixStep(instrs, n);
    if HasMover(instrs[..n]) {
      var k :| 0 <= k < n && instrs[..n][k].Mover?;
      assert more[k].Mover?;
    }
    if instrs[n].Mover? {
      assert more[n].Mover?;
    }
  }

  lemma {:induction false} InStepUpTo(c: Clip, instrs: seq<Instr>, r0: Record, n: nat)
    requires Program(instrs) && Absolute(instrs) && Track(c, instrs).report == CLEAN && n <= |instrs|
    requires r0.dev.clip == c && NoHiddenMotion(c, instrs)
    ensures InStep(c, instrs[..n], PerformAll(r0, instrs[..n]).dev)
  {
    hide Track, PerformAll, Program, Absolute;
    ClipStays(c, instrs, r0, n);
    PrefixIsClean(c, instrs, n);
    if n > 0 {
      InStepUpTo(c, instrs, r0, n - 1);
      StepFacts(c, instrs, r0, n - 1);
      HasMoverNext(instrs, n - 1);
      assert instrs[n - 1].Bare? && HasMover(instrs[..n - 1]) ==> StaysPut(c, instrs, n - 1);
    }
  }

  /** For a program of absolute movers the validator has no finding about, plotter and validator
      are at the same point after every instruction if and only if no motion is hidden from the
      plotter. */
  lemma InStepExactly(c: Clip, instrs: seq<Instr>, r0: Record)
    requires Program(instrs) && Absolute(instrs) && Track(c, instrs).report == CLEAN && r0.dev.clip == c
    ensures AlwaysInStep(c, instrs, r0) <==> NoHiddenMotion(c, instrs)
  {
    hide Track, PerformAll, Program, Absolute;
    if NoHiddenMotion(c, instrs) {
      forall n | 0 <= n <= |instrs| ensures InStep(c, instrs[..n], PerformAll(r0, instrs[..n]).dev) {
        InStepUpTo(c, instrs, r0, n);
      }
    }
    if AlwaysInStep(c, instrs, r0) {
      forall i | 0 <= i < |instrs| && instrs[i].Bare? && HasMover(instrs[..i]) ensures StaysPut(c, instrs, i) {
        ClipStays(c, instrs, r0, i);
        StepFacts(c, instrs, r0, i);
        HasMoverNext(instrs, i);
        assert InStep(c, instrs[..i], PerformAll(r0, instrs[..i]).dev);
        assert InStep(c, instrs[..i + 1], PerformAll(r0, instrs[..i + 1]).dev);
      }
    }
  }

  /** It is enough that the validator sees motion only where the plotter sees a mover. */
  lemma NothingHidden(c: Clip, instrs: seq<Instr>)
    requires forall i :: 0 <= i < |instrs| && instrs[i].Bare? ==> !SeesMotion(instrs[i].text)
    ensures NoHiddenMotion(c, instrs)
  {
    hide Track, SeesMotion;
    forall i | 0 <= i < |instrs| && instrs[i].Bare? && HasMover(instrs[..i]) ensures StaysPut(c, instrs, i) {
      PrefixStep(instrs, i);
      TrackSnoc(c, instrs[..i], instrs[i]);
      NoMotionSeen(Some(c), Track(c, instrs[..i]).state, instrs[i].text);
    }
  }

  /** A mover of a program without findings lies inside the clip, pair by pair. */
  lemma MoversInClip(c: Clip, instrs: seq<Instr>, i: nat)
    requires Program(instrs) && Absolute(instrs) && Track(c, instrs).report == CLEAN
    requires i < |instrs| && instrs[i].Mover?
    ensures WellFormed(instrs[i]) && PairsInClip(c, instrs[i].pairs)
  {
    hide Execute, CheckKind, KindOf, MoverOutcome;
    var init := instrs[..i];
    PrefixIsClean(c, instrs, i);
    PrefixIsClean(c, instrs, i + 1);
    PrefixStep(instrs, i);
    CleanPrefix(c, init, instrs[i]);
    assert WellFormed(instrs[i]);
    MoverKindOutcome(c, Track(c, init).state, instrs[i]);
    MoverAgrees(c, Track(c, init).state, PowerUp(c), instrs[i],
                MoverOutcome(Some(c), Track(c, init).state.(seenBody := true), instrs[i].head,
                  Values(instrs[i].pairs)));
  }

  /** Where the pen is, against the validator's tracking, after `g` of the program. */
  ghost predicate FollowsTracker(c: Clip, instrs: seq<Instr>, q: Plotter, g: Progress) {
    && g.i <= |instrs|
    && match g
       case At(i) => InStep(c, instrs[..i], q.dev)
       case Inside(i, j) =>
         && i < |instrs| && instrs[i].Mover? && j < |instrs[i].pairs|
         && (j > 0 ==>
             PlainPair(instrs[i].pairs[j - 1])
             && q.dev.x == Value(instrs[i].pairs[j - 1].x) && q.dev.y == Value(instrs[i].pairs[j - 1].y))
  }

  /** Validator and plotter agree throughout.  For a program of absolute movers the validator has no
      finding about, and in which no motion is hidden, at every moment of every arrival schedule:
      between instructions the pen is exactly where the validator tracked it after the instructions
      logged so far; inside a mover it is exactly at the pair popped last.  Nothing is ever
      clamped. */
  lemma PlotterFollowsValidator(p: Plotter, instrs: seq<Instr>, turns: seq<Turn>) returns (g: Progress)
    requires Program(instrs) && Absolute(instrs) && NoHiddenMotion(p.dev.clip, instrs) && Idle(p)
    requires CheckAll(Some(p.dev.clip), START, Kinds(Tokens(Script(instrs)))).report == CLEAN
    ensures var (q, left) := Play(p, Script(instrs), turns);
      && FollowsTracker(p.dev.clip, instrs, q, g)
      && q.commands == PerformAll(RecordOf(p), instrs[..g.i]).commands
      && (left == "" && Work(q) == q ==> g == At(|instrs|))
  {
    var c, r0 := p.dev.clip, RecordOf(p);
    var (q, left) := Play(p, Script(instrs), turns);
    ProgramUndivided(instrs);
    ScriptTokens(instrs);
    IdleIsConsistent(p, instrs);
    g := PlayKeeps(r0, instrs, Script(instrs), p, At(0), turns);
    if left == "" && Work(q) == q {
      g := WorkKeeps(r0, instrs, left, q, g);
    }
    ConsistentFollows(c, instrs, r0, left, q, g);
  }

  /** The tracker's state after the whole payload, in particular. */
  lemma PlotterEndsWithValidator(p: Plotter, instrs: seq<Instr>, turns: seq<Turn>)
    requires Program(instrs) && Absolute(instrs) && NoHiddenMotion(p.dev.clip, instrs) && Idle(p) && HasMover(instrs)
    requires CheckAll(Some(p.dev.clip), START, Kinds(Tokens(Script(instrs)))).report == CLEAN
    ensures var s := CheckAll(Some(p.dev.clip), START, Kinds(Tokens(Script(instrs)))).state;
      var (q, left) := Play(p, Script(instrs), turns);
      left == "" && Work(q) == q ==> q.dev.x == s.x && q.dev.y == s.y
  {
    ProgramUndivided(instrs);
    ScriptTokens(instrs);
    var g := PlotterFollowsValidator(p, instrs, turns);
    assert instrs[..|instrs|] == instrs;
  }

  lemma ConsistentFollows(c: Clip, instrs: seq<Instr>, r0: Record, left: string, q: Plotter, g: Progress)
    requires Program(instrs) && Absolute(instrs) && NoHiddenMotion(c, instrs)
    requires r0.dev.clip == c && Track(c, instrs).report == CLEAN
    requires Consistent(r0, instrs, left, q, g)
    ensures FollowsTracker(c, instrs, q, g) && q.commands == PerformAll(r0, instrs[..g.i]).commands
  {
    hide Execute, Perform, Track;
    InStepUpTo(c, instrs, r0, g.i);
    ClipStays(c, instrs, r0, g.i);
    match g {
      case At(i) =>
      case Inside(i, j) =>
        if j > 0 {
          MoversInClip(c, instrs, i);
          NoStopIsClamped(PerformAll(r0, instrs[..i]).dev, instrs[i].head, instrs[i].pairs, j);
        }
    }
  }

  // ---- a blank in front of a mover ----------------------------------------------------

  /** The validator does not look at a blank in front of an instruction. */
  lemma BlankBefore(b: char, t: string)
    requires IsBlank(b)
    ensures KindOf([b] + t) == KindOf(t)
  {
    hide IsAllowed, IsQuery;
    assert ([b] + t)[1..] == t;
  }

  /** The plotter does: what it pops is not recognised, and the pen stays. */
  lemma BlankHides(dev: Device, b: char, t: string)
    requires IsBlank(b)
    ensures Execute(dev, [b] + t + ";") == Effect(dev.(hpglError := 1), None) && !IsMover(Mnemonic([b] + t))
  {
    var token := [b] + t + ";";
    assert Prefix(token, 2)[0] == b && Mnemonic(token)[0] == UpperChar(b);
    assert |Prefix([b] + t, 2)| > 0 && Prefix([b] + t, 2)[0] == b;
  }

  function HiddenProgram(a: Pair, b: char, head: string, pairs: seq<Pair>): seq<Instr> {
    [Mover("PA", [a]), Bare([b] + (head + PairsText(pairs)))]
  }

  /** A mover with a blank in front: the validator tracks it to its last pair, the pen stays where
      the mover before it ended. */
  lemma BlankMoverParts(c: Clip, a: Pair, b: char, head: string, pairs: seq<Pair>, r0: Record)
    requires PlainPair(a) && |PairText(a)| < PAIR_WINDOW && IsBlank(b) && pairs != [] && PlainPairs(pairs)
    requires (head == "PU" || head == "PD" || head == "PA") && r0.dev.clip == c
    requires Track(c, HiddenProgram(a, b, head, pairs)).report == CLEAN
    ensures var instrs := HiddenProgram(a, b, head, pairs);
      var s, dev, last := Track(c, instrs).state, PerformAll(r0, instrs).dev, pairs[|pairs| - 1];
      && Program(instrs) && Absolute(instrs) && PlainPair(last)
      && s.x == Value(last.x) && s.y == Value(last.y) && dev.x == Value(a.x) && dev.y == Value(a.y)
  {
    var instrs := HiddenProgram(a, b, head, pairs);
    HiddenIsProgram(a, b, head, pairs);
    HiddenIsTracked(c, a, b, head, pairs);
    HiddenIsNotPlotted(c, a, b, head, pairs, r0);
  }

  lemma BlankOp(b: char, t: string)
    requires IsBlank(b)
    ensures OpOf([b] + t) == OpOf(t)
  {
    assert ([b] + t)[1..] == t;
  }

  lemma BlankIsWellFormed(b: char, t: string)
    requires IsBlank(b) && ';' !in t
    ensures WellFormed(Bare([b] + t))
  {
    hide Execute, IsMover;
    BlankHides(PowerUp(A4_CLIP), b, t);
  }

  lemma HiddenIsProgram(a: Pair, b: char, head: string, pairs: seq<Pair>)
    requires PlainPair(a) && |PairText(a)| < PAIR_WINDOW && IsBlank(b) && pairs != [] && PlainPairs(pairs)
    requires head == "PU" || head == "PD" || head == "PA"
    ensures Program(HiddenProgram(a, b, head, pairs)) && Absolute(HiddenProgram(a, b, head, pairs))
  {
    hide Execute, Plain, OpOf, PairsText, PairText;
    var t := head + PairsText(pairs);
    PairsTextEnds(pairs);
    BlankIsWellFormed(b, t);
    BlankOp(b, t);
    MoverReads(head, pairs);
    assert PlainPairs([a]);
    MoverReads("PA", [a]);
  }

  /** A mover without findings is tracked to its last pair, whatever blanks are in front of it. */
  lemma MoverTracked(c: Clip, s: Tracker, text: string, head: string, pairs: seq<Pair>)
    requires (head == "PU" || head == "PD" || head == "PA") && pairs != [] && PlainPairs(pairs) && s.absolute
    requires KindOf(text) == KindOf(head + PairsText(pairs)) && CheckKind(Some(c), s, KindOf(text)).report == CLEAN
    ensures var at, last := CheckKind(Some(c), s, KindOf(text)).state, pairs[|pairs| - 1];
      PlainPair(last) && at.x == Value(last.x) && at.y == Value(last.y)
  {
    hide KindOf, CheckKind, WalkPairs;
    MoverKind(head, pairs);
    CheckMover(Some(c), s, head, pairs);
    CleanWalk(c, s.x, s.y, pairs);
  }

  lemma HiddenSteps(c: Clip, a: Pair, b: char, head: string, pairs: seq<Pair>)
    requires Track(c, HiddenProgram(a, b, head, pairs)).report == CLEAN
    ensures var all := HiddenProgram(a, b, head, pairs);
      var s0, s1 := Track(c, []).state, Track(c, all[..1]).state;
      && s0 == START
      && CheckKind(Some(c), s0, KindOf(TextOf(all[0]))) == Checked(s1, CLEAN)
      && CheckKind(Some(c), s1, KindOf(TextOf(all[1]))) == Checked(Track(c, all).state, CLEAN)
  {
    hide KindOf, CheckKind;
    var all := HiddenProgram(a, b, head, pairs);
    assert all == all[..1] + [all[1]] && all[..1] == [] + [all[0]];
    CleanPrefix(c, all[..1], all[1]);
    CleanPrefix(c, [], all[0]);
  }

  lemma HiddenIsTracked(c: Clip, a: Pair, b: char, head: string, pairs: seq<Pair>)
    requires PlainPair(a) && |PairText(a)| < PAIR_WINDOW && IsBlank(b) && pairs != [] && PlainPairs(pairs)
    requires head == "PU" || head == "PD" || head == "PA"
    requires Track(c, HiddenProgram(a, b, head, pairs)).report == CLEAN
    ensures var all, last := HiddenProgram(a, b, head, pairs), pairs[|pairs| - 1];
      var s1, s2 := Track(c, all[..1]).state, Track(c, all).state;
      && PlainPair(last) && s2.x == Value(last.x) && s2.y == Value(last.y)
      && s1.x == Value(a.x) && s1.y == Value(a.y)
  {
    hide KindOf, CheckKind, Track;
    var all := HiddenProgram(a, b, head, pairs);
    HiddenSteps(c, a, b, head, pairs);
    HiddenIsProgram(a, b, head, pairs);
    PrefixIsClean(c, all, 1);
    BlankBefore(b, head + PairsText(pairs));
    assert PlainPairs([a]);
    MoverTracked(c, START, TextOf(all[0]), "PA", [a]);
    MoverTracked(c, Track(c, all[..1]).state, TextOf(all[1]), head, pairs);
  }

  lemma HiddenIsNotPlotted(c: Clip, a: Pair, b: char, head: string, pairs: seq<Pair>, r0: Record)
    requires PlainPair(a) && |PairText(a)| < PAIR_WINDOW && IsBlank(b) && pairs != [] && PlainPairs(pairs)
    requires (head == "PU" || head == "PD" || head == "PA") && r0.dev.clip == c
    requires Track(c, HiddenProgram(a, b, head, pairs)).report == CLEAN
    ensures var dev := PerformAll(r0, HiddenProgram(a, b, head, pairs)).dev; dev.x == Value(a.x) && dev.y == Value(a.y)
  {
    hide Track, PerformAll, Program, Absolute, Value, PairsText, PairText, PlainPair, IsBlank;
    var all := HiddenProgram(a, b, head, pairs);
    HiddenIsProgram(a, b, head, pairs);
    HiddenIsTracked(c, a, b, head, pairs);
    ClipStays(c, all, r0, 0);
    StepFacts(c, all, r0, 0);
    StepFacts(c, all, r0, 1);
    assert all[..2] == all;
  }

  lemma ThreeNumbers()
    ensures Plain("0") && Plain("1") && Plain("2") && Value("0") == 0.0 && Value("1") == 1.0 && Value("2") == 2.0
  {
    assert IntText(1) == "1" && IntText(0) == "0" && IntText(2) == "2";
    IntRoundTrip(0);
    IntRoundTrip(1);
    IntRoundTrip(2);
  }

  lemma OneStopOutcome(c: Clip, s: Tracker, x: real, y: real)
    requires Relative.InClip(c, x, y) && Abs(x) <= ABSURD && Abs(y) <= ABSURD
    ensures MoverOutcome(Some(c), s, "PA", [x, y]).report == CLEAN
  {
    var nums := [x, y];
    assert nums[2..] == [] && !AnyUnreasonable(nums);
    NoWalk(c, x, y);
    ThenAssociates(CLEAN, CLEAN, CLEAN);
  }

  lemma OneStop(c: Clip, s: Tracker, text: string, p: Pair)
    requires PlainPair(p) && PlainPairs([p]) && KindOf(text) == KindOf("PA" + PairsText([p]))
    requires Relative.InClip(c, Value(p.x), Value(p.y)) && Abs(Value(p.x)) <= ABSURD && Abs(Value(p.y)) <= ABSURD
    ensures CheckKind(Some(c), s, KindOf(text)).report == CLEAN
  {
    hide KindOf, CheckKind, Value, Plain, MoverOutcome, PairsText;
    MoverKind("PA", [p]);
    CheckMover(Some(c), s, "PA", [p]);
    ValuesOfOne(p);
    OneStopOutcome(c, s.(seenBody := true), Value(p.x), Value(p.y));
  }

  lemma ValuesOfOne(p: Pair)
    requires PlainPair(p) && PlainPairs([p])
    ensures Values([p]) == [Value(p.x), Value(p.y)]
  {
    hide Value;
    assert [p][1..] == [] && [p][0] == p;
  }

  /** `PA0,0;` and `PA1,2;` with a line break between them: accepted without a finding, tracked to
      (1, 2), and the pen stays at the origin. */
  lemma LineBreakExample(r0: Record)
    requires r0.dev.clip == A4_CLIP
    ensures var instrs := HiddenProgram(Pair("0", "0"), '\n', "PA", [Pair("1", "2")]);
      var s, dev := Track(A4_CLIP, instrs).state, PerformAll(r0, instrs).dev;
      && Script(instrs) == "PA0,0;\nPA1,2;" && Track(A4_CLIP, instrs).report == CLEAN
      && s.x == 1.0 && s.y == 2.0 && dev.x == 0.0 && dev.y == 0.0
  {
    hide Track, PerformAll, Value, Plain, Program;
    ThreeNumbers();
    ExampleText();
    ExampleIsClean();
    assert PlainPairs([Pair("1", "2")]);
    BlankMoverParts(A4_CLIP, Pair("0", "0"), '\n', "PA", [Pair("1", "2")], r0);
  }

  lemma ExampleText()
    ensures Script(HiddenProgram(Pair("0", "0"), '\n', "PA", [Pair("1", "2")])) == "PA0,0;\nPA1,2;"
  {
    var all := HiddenProgram(Pair("0", "0"), '\n', "PA", [Pair("1", "2")]);
    assert Script(all[1..]) == TextOf(all[1]) + ";" + Script(all[1..][1..]);
  }

  lemma ExampleIsClean()
    ensures Track(A4_CLIP, HiddenProgram(Pair("0", "0"), '\n', "PA", [Pair("1", "2")])).report == CLEAN
  {
    hide KindOf, CheckKind, Track, Value, Plain, OpOf;
    var a, b := Pair("0", "0"), Pair("1", "2");
    var all := HiddenProgram(a, '\n', "PA", [b]);
    ThreeNumbers();
    assert PlainPairs([a]) && PlainPairs([b]);
    HiddenIsProgram(a, '\n', "PA", [b]);
    BlankBefore('\n', "PA" + PairsText([b]));
    assert all[..1] == [] + [all[0]] && all == all[..1] + [all[1]];
    TrackSnoc(A4_CLIP, [], all[0]);
    TrackSnoc(A4_CLIP, all[..1], all[1]);
    NothingTracked();
    OneStop(A4_CLIP, START, TextOf(all[0]), a);
    AbsoluteStays(Some(A4_CLIP), START, TextOf(all[0]));
    OneStop(A4_CLIP, Track(A4_CLIP, all[..1]).state, TextOf(all[1]), b);
  }

  lemma NothingTracked()
    ensures Track(A4_CLIP, []) == Checked(START, CLEAN)
  {
  }

  // ---- relative mode, where they part -------------------------------------------------

  lemma {:induction false} RelativeWalkSums(clip: Option<Clip>, x: real, y: real, pairs: seq<Pair>)
    requires PlainPairs(pairs)
    ensures var w := WalkPairs(clip, false, x, y, Values(pairs));
      w.x == x + Relative.Sum(pairs).0 && w.y == y + Relative.Sum(pairs).1
    decreases |pairs|
  {
    if pairs != [] {
      var n := |pairs| - 1;
      var init, last := pairs[..n], pairs[n];
      PlainSlices(pairs, n);
      assert pairs == init + [last] && PlainPair(last) && PlainPairs([last]);
      RelativeWalkSums(clip, x, y, init);
      ValuesAppend(init, [last]);
      EvenLength(init);
      WalkAppend(clip, false, x, y, Values(init), Values([last]));
      var mid := WalkPairs(clip, false, x, y, Values(init));
      OneRelativePair(clip, mid.x, mid.y, last);
    }
  }

  lemma OneRelativePair(clip: Option<Clip>, x: real, y: real, p: Pair)
    requires PlainPair(p) && PlainPairs([p])
    ensures var w := WalkPairs(clip, false, x, y, Values([p])); w.x == x + Value(p.x) && w.y == y + Value(p.y)
  {
    assert Values([p]) == [Value(p.x), Value(p.y)] + Values([p][1..]) == [Value(p.x), Value(p.y)];
    assert [Value(p.x), Value(p.y)][2..] == [];
  }

  /** In relative mode the validator adds up PU and PD coordinates while the plotter takes them
      as absolute: the two agree exactly when everything before the last pair sums to the origin. */
  lemma RelativeModeAgreesWhen(clip: Option<Clip>, s: Tracker, dev: Device, head: string, earlier: seq<Pair>,
      last: Pair)
    requires (head == "PU" || head == "PD") && !s.absolute
    requires PlainPairs(earlier) && PlainPair(last) && PlainPairs(earlier + [last])
    requires !AnyUnreasonable(Values(earlier + [last])) && Relative.InClip(dev.clip, Value(last.x), Value(last.y))
    ensures var tracked := MoverOutcome(clip, s, head, Values(earlier + [last])).state;
      var at := Touched(dev, head, earlier + [last]);
      (at.x == tracked.x && at.y == tracked.y) <==>
      (s.x + Relative.Sum(earlier).0 == 0.0 && s.y + Relative.Sum(earlier).1 == 0.0)
  {
    hide CheckExtent, Value;
    var all := earlier + [last];
    RelativeWalkSums(clip, s.x, s.y, all);
    assert all[..|earlier|] == earlier && all[|earlier|] == last;
    TargetUnclamped(PenSet(dev, head), Value(last.x), Value(last.y));
  }
}
