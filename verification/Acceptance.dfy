/** An accepted payload is one the executor can take: no mover holds a letter. */
module Acceptance {
  import opened Text
  import opened Numbers
  import opened Device
  import opened Hpgl
  import opened Validator
  import Soundness
  import opened Emulator
  import opened Delivery
  import F = FakePlotter
  import SplitVerdict

  // ---- letters ------------------------------------------------------------------------

  lemma UnsignedLetterFree(s: string)
    requires Unsigned(s).Some?
    ensures LetterFree(s)
  {
    var i := DigitsEnd(s, 0);
    DigitsEndMeaning(s, 0);
    if i < |s| {
      DigitsEndMeaning(s, i + 1);
    }
  }

  lemma NumberLetterFree(s: string)
    requires Number(s).Some?
    ensures LetterFree(s)
  {
    if s != "" && (s[0] == '+' || s[0] == '-') {
      UnsignedLetterFree(s[1..]);
      assert s == [s[0]] + s[1..];
    } else {
      UnsignedLetterFree(s);
    }
  }

  lemma ParameterLetterFree(s: string)
    requires Parameter(s).Some?
    ensures LetterFree(s)
  {
    if s != "" && s[|s| - 1] == '\n' && Number(s[..|s| - 1]).Some? {
      NumberLetterFree(s[..|s| - 1]);
      assert s == s[..|s| - 1] + [s[|s| - 1]];
    } else {
      NumberLetterFree(s);
    }
  }

  lemma {:induction false} ParametersLetterFree(parts: seq<string>)
    requires Parameters(parts).Some?
    ensures forall i :: 0 <= i < |parts| ==> LetterFree(parts[i])
  {
    if parts != [] {
      ParameterLetterFree(parts[0]);
      ParametersLetterFree(parts[1..]);
    }
  }

  lemma {:induction false} JoinLetterFree(parts: seq<string>)
    requires forall i :: 0 <= i < |parts| ==> LetterFree(parts[i])
    ensures LetterFree(Join(parts, ','))
  {
    if |parts| > 1 {
      JoinLetterFree(parts[1..]);
    }
  }

  lemma {:induction false} DropSpacesLetterFree(s: string)
    requires LetterFree(DropSpaces(s))
    ensures LetterFree(s)
  {
    if s != "" {
      if s[0] != ' ' {
        var rest := DropSpaces(s[1..]);
        assert ([s[0]] + rest)[0] == s[0] && ([s[0]] + rest)[1..] == rest;
      }
      DropSpacesLetterFree(s[1..]);
      assert s == [s[0]] + s[1..];
    }
  }

  lemma {:induction false} StripLeftLetterFree(s: string)
    requires LetterFree(StripLeft(s))
    ensures LetterFree(s)
  {
    if s != "" && IsBlank(s[0]) {
      StripLeftLetterFree(s[1..]);
      assert s == [s[0]] + s[1..];
    }
  }

  lemma {:induction false} StripRightLetterFree(s: string)
    requires LetterFree(StripRight(s))
    ensures LetterFree(s)
    decreases |s|
  {
    if s != "" && IsBlank(s[|s| - 1]) {
      StripRightLetterFree(s[..|s| - 1]);
      assert s == s[..|s| - 1] + [s[|s| - 1]];
    }
  }

  /** A blob of numbers holds no letter. */
  lemma NumbersLetterFree(blob: string)
    requires ParseNums(blob).Some?
    ensures LetterFree(blob)
  {
    var t := Strip(blob);
    if t != "" {
      var parts := Split(DropSpaces(t), ',');
      ParametersLetterFree(parts);
      JoinLetterFree(parts);
      JoinSplit(DropSpaces(t), ',');
      DropSpacesLetterFree(t);
    }
    StripRightLetterFree(StripLeft(blob));
    StripLeftLetterFree(blob);
  }

  lemma {:induction false} StripRightBody(raw: string)
    requires |raw| >= 2 && !IsBlank(raw[1])
    requires |StripRight(raw)| >= 2 && LetterFree(StripRight(raw)[2..])
    ensures LetterFree(raw[2..])
    decreases |raw|
  {
    if IsBlank(raw[|raw| - 1]) {
      var init := raw[..|raw| - 1];
      StripRightKeeps(init);
      StripRightBody(init);
      assert raw[2..] == init[2..] + [raw[|raw| - 1]];
    }
  }

  /** The validator reads the same mover as the plotter, and its parameters. */
  lemma MoverBody(raw: string)
    requires IsMover(Mnemonic(raw)) && LetterFree(ArgsOf(raw))
    ensures LetterFree(raw[2..])
  {
    MoverOp(raw);
    var body := StripRight(raw)[2..];
    assert Suffix(Strip(raw), 2) == body;
    StripRightLetterFree(StripLeft(body));
    StripLeftLetterFree(body);
    StripRightBody(raw);
  }

  lemma MoverSeenAlike(raw: string)
    requires IsMover(Mnemonic(raw))
    ensures OpOf(raw) == Mnemonic(raw) && HasMnemonic(Strip(raw))
  {
    MoverOp(raw);
    var t := StripRight(raw);
    assert t[0] == raw[..2][0] && t[1] == raw[..2][1];
  }

  /** Each instruction of an error-free list is checked without error from some state. */
  lemma {:induction false} EachPasses(clip: Option<Clip>, s: Tracker, kinds: seq<Kind>, j: nat) returns (at: Tracker)
    requires CheckAll(clip, s, kinds).report.errors == [] && j < |kinds|
    ensures CheckKind(clip, at, kinds[j]).report.errors == []
    decreases |kinds|
  {
    if j == 0 {
      at := s;
    } else {
      var next := Soundness.HeadPasses(clip, s, kinds);
      at := EachPasses(clip, next, kinds[1..], j - 1);
    }
  }

  lemma MotionHasNumbers(clip: Option<Clip>, s: Tracker, op: string, args: string)
    requires IsMover(op) && CheckKind(clip, s, Body(op, args)).report.errors == []
    ensures ParseNums(args).Some?
  {
    MotionBody(clip, s, op, args);
  }

  lemma MoverKindOf(raw: string)
    requires IsMover(Mnemonic(raw))
    ensures KindOf(raw) == Body(Mnemonic(raw), ArgsOf(raw))
  {
    MoverSeenAlike(raw);
    MotionAllowed(Mnemonic(raw));
  }

  /** Every instruction of an accepted payload can be delivered: in particular no mover holds a
      letter behind its mnemonic, which would make the plotter abandon it. */
  lemma AcceptedIsDeliverable(text: string, clip: Option<Clip>)
    requires Ok(text, clip)
    ensures AllDeliverable(Tokens(text))
  {
    var tokens := Tokens(text);
    forall j | 0 <= j < |tokens| ensures Deliverable(tokens[j]) {
      if IsMover(Mnemonic(tokens[j])) {
        KindsAt(tokens, j);
        var at := EachPasses(clip, START, Kinds(tokens), j);
        MoverKindOf(tokens[j]);
        MotionHasNumbers(clip, at, Mnemonic(tokens[j]), ArgsOf(tokens[j]));
        NumbersLetterFree(ArgsOf(tokens[j]));
        MoverBody(tokens[j]);
      }
    }
  }

  // ---- the end of a mover -------------------------------------------------------------

  predicate EndsWith(s: string, c: char) { s != "" && s[|s| - 1] == c }

  lemma {:induction false} JoinEnds(parts: seq<string>)
    requires parts != [] && EndsWith(Join(parts, ','), ',') && forall i :: 0 <= i < |parts| ==> ',' !in parts[i]
    ensures parts[|parts| - 1] == ""
  {
    if |parts| > 1 {
      var rest := parts[1..];
      var tail := Join(rest, ',');
      assert Join(parts, ',') == parts[0] + [','] + tail;
      if tail != "" {
        JoinEnds(rest);
      } else {
        JoinEmpty(rest);
      }
    }
  }

  lemma JoinEmpty(parts: seq<string>)
    requires parts != [] && Join(parts, ',') == ""
    ensures parts == [""]
  {
  }

  lemma {:induction false} DropSpacesEnds(s: string)
    requires EndsWith(s, ',')
    ensures EndsWith(DropSpaces(s), ',')
  {
    if |s| > 1 {
      assert s[1..][|s[1..]| - 1] == s[|s| - 1];
      DropSpacesEnds(s[1..]);
    }
  }

  lemma {:induction false} StripEnds(s: string)
    requires EndsWith(s, ',')
    ensures EndsWith(Strip(s), ',')
  {
    if IsBlank(s[0]) {
      assert s[1..][|s[1..]| - 1] == s[|s| - 1];
      StripEnds(s[1..]);
    }
  }

  /** Numbers never end in a comma. */
  lemma NumbersEnd(blob: string)
    requires ParseNums(blob).Some?
    ensures !EndsWith(blob, ',')
  {
    if EndsWith(blob, ',') {
      StripEnds(blob);
      DropSpacesEnds(Strip(blob));
      var dropped := DropSpaces(Strip(blob));
      var parts := Split(dropped, ',');
      JoinSplit(dropped, ',');
      JoinEnds(parts);
      AllParameters(parts, |parts| - 1);
      assert false;
    }
  }

  lemma {:induction false} AllParameters(parts: seq<string>, i: nat)
    requires Parameters(parts).Some? && i < |parts|
    ensures Parameter(parts[i]).Some? && parts[i] != ""
  {
    if i > 0 {
      AllParameters(parts[1..], i - 1);
    }
  }

  lemma MoverEnd(raw: string)
    requires IsMover(Mnemonic(raw)) && EndsWith(raw, ',')
    ensures EndsWith(ArgsOf(raw), ',')
  {
    MoverOp(raw);
    StripEnds(raw);
    assert StripRight(raw) == raw && Strip(raw) == raw;
    assert Suffix(raw, 2)[|raw| - 3] == raw[|raw| - 1];
    StripEnds(Suffix(raw, 2));
  }

  /** No mover of an accepted payload ends in a comma. */
  lemma AcceptedEndsInNumber(text: string, clip: Option<Clip>, j: nat)
    requires Ok(text, clip) && j < |Tokens(text)| && IsMover(Mnemonic(Tokens(text)[j]))
    ensures !EndsWith(Tokens(text)[j], ',')
  {
    var raw := Tokens(text)[j];
    KindsAt(Tokens(text), j);
    var at := EachPasses(clip, START, Kinds(Tokens(text)), j);
    MoverKindOf(raw);
    MotionHasNumbers(clip, at, Mnemonic(raw), ArgsOf(raw));
    NumbersEnd(ArgsOf(raw));
    if EndsWith(raw, ',') {
      MoverEnd(raw);
    }
  }

  // ---- bytes --------------------------------------------------------------------------

  /** Mnemonics of movers are written in capitals. */
  ghost predicate CapitalMovers(tokens: seq<string>) {
    forall i :: 0 <= i < |tokens| && IsMover(Mnemonic(tokens[i])) ==> tokens[i][..2] == Mnemonic(tokens[i])
  }

  lemma FollowsDoesNotRewrite(tokens: seq<string>, before: seq<string>, unsent: string, p: Plotter, i: nat)
    requires AllDeliverable(tokens) && CapitalMovers(tokens) && Follows(tokens, before, unsent, p, i)
    ensures !F.Rewrites(p)
  {
    hide Execute;
    if p.mover.Some? {
      if p.inbuf != "" {
        NoLetterAhead(tokens, i, unsent, p);
      }
    } else if ';' !in p.inbuf && |p.inbuf| > 2 && IsMover(Mnemonic(p.inbuf)) {
      assert p.inbuf + unsent != "";
      assert i < |tokens|;
      EnterRemaining(tokens, i, unsent, p);
      EnteredSeen(tokens, i, unsent, p);
      NoLetterAhead(tokens, i, unsent, Entered(p));
    }
  }

  lemma EnteredSeen(tokens: seq<string>, i: nat, unsent: string, p: Plotter)
    requires CapitalMovers(tokens) && i < |tokens| && p.mover.None? && Remaining(tokens, i, p, unsent)
    requires ';' !in p.inbuf && |p.inbuf| > 2 && IsMover(Mnemonic(tokens[i]))
    ensures Prefix(p.inbuf, 2) == Mnemonic(p.inbuf)
  {
    TerminateNext(tokens, i);
    CutBefore(tokens[i], Terminate(tokens[i + 1..]), p.inbuf, unsent, 2);
    assert Prefix(p.inbuf, 2) == Prefix(tokens[i], 2);
  }

  lemma {:induction false} PlayNeverRewrites(
    tokens: seq<string>, before: seq<string>, unsent: string, p: Plotter, i: nat, turns: seq<Turn>)
    requires AllDeliverable(tokens) && CapitalMovers(tokens) && Follows(tokens, before, unsent, p, i)
    ensures F.NeverRewrites(p, unsent, turns)
    decreases |turns|
  {
    hide Follows, Work, Accept, F.Rewrites;
    if turns != [] {
      match turns[0] {
        case Arrive(n) =>
          var k := Arrival(p, unsent, n);
          ArriveFollows(tokens, before, unsent, p, i, n);
          PlayNeverRewrites(tokens, before, unsent[k..], Accept(p, unsent[..k]), i, turns[1..]);
        case Execute1 =>
          FollowsDoesNotRewrite(tokens, before, unsent, p, i);
          var r := WorkFollows(tokens, before, unsent, p, i);
          PlayNeverRewrites(tokens, before, unsent, Work(p), if r.Next? then i + 1 else i, turns[1..]);
      }
    }
  }

  /** An accepted payload whose movers are in capitals is conserved byte for byte under every
      schedule: log, pending token, buffer and line always add up to it. */
  lemma AcceptedIsConserved(text: string, clip: Option<Clip>, p: Plotter, turns: seq<Turn>)
    requires Ok(text, clip) && Tail(text) == "" && CapitalMovers(Tokens(text)) && Idle(p)
    ensures var (q, left) := Play(p, text, turns); F.Ledger(q) + left == F.Ledger(p) + text
  {
    AcceptedIsDeliverable(text, clip);
    TerminatedText(text);
    StartFollows(Tokens(text), p);
    PlayNeverRewrites(Tokens(text), p.commands, text, p, 0, turns);
    F.PlayConserves(p, text, turns);
  }

  // ---- a blank behind the mnemonic ----------------------------------------------------

  function Spaced(head: string, pairs: seq<Pair>): string { head + " " + PairsText(pairs) }

  lemma SpacedKind(head: string, pairs: seq<Pair>)
    requires (head == "PU" || head == "PD" || head == "PA") && PlainPairs(pairs) && pairs != []
    ensures KindOf(Spaced(head, pairs)) == KindOf(head + PairsText(pairs))
  {
    var args := PairsText(pairs);
    PairsTextEnds(pairs);
    SplitVerdict.MoverKind(head, pairs);
    SplitVerdict.MoverHasMnemonic(head, " " + args);
    var raw := Spaced(head, pairs);
    assert raw == head + (" " + args);
    SpacedReads(head, args);
    SplitVerdict.MotionKind(raw, head, args);
  }

  lemma SpacedReads(head: string, args: string)
    requires (head == "PU" || head == "PD" || head == "PA") && args != "" && Tidy(args)
    ensures OpOf(head + " " + args) == head && ArgsOf(head + " " + args) == args
  {
    var raw := head + " " + args;
    StripTidy(raw);
    assert Prefix(raw, 2) == head && Upper(head) == head;
    assert Suffix(raw, 2) == " " + args;
    assert (" " + args)[1..] == args;
    StripTidy(args);
  }

  lemma OneKind(t: string, clip: Option<Clip>)
    ensures CheckAll(clip, START, Kinds([t])).report.errors == CheckKind(clip, START, KindOf(t)).report.errors
  {
    hide KindOf, CheckKind;
    assert Kinds([t]) == [KindOf(t)] && [KindOf(t)][1..] == [];
  }

  lemma OneInstruction(t: string, clip: Option<Clip>)
    requires ';' !in t
    ensures Ok(t + ";", clip) <==>
      |t| < MAX_JOB_BYTES && ControlErrors(t + ";", 0) == [] && CheckKind(clip, START, KindOf(t)).report.errors == []
  {
    hide KindOf, CheckKind, CheckAll, Kinds, Tokens, Tail, ControlErrors;
    OneToken(t);
    OneKind(t, clip);
    assert Strip("") == "";
  }

  lemma BlankControls(a: string, b: string)
    ensures ControlErrors(a + " " + b, 0) == [] <==> ControlErrors(a + b, 0) == []
  {
    var bare, spaced := a + b, a + " " + b;
    SplitVerdict.ControlsMean(bare, 0);
    SplitVerdict.ControlsMean(spaced, 0);
    forall i | 0 <= i < |bare| ensures bare[i] == spaced[if i < |a| then i else i + 1] {
    }
    forall i | 0 <= i < |spaced| && i != |a| ensures spaced[i] == bare[if i < |a| then i else i - 1] {
    }
  }

  /** A blank behind the mnemonic of a mover is accepted wherever the mover is, size permitting. */
  lemma SpacedIsAccepted(head: string, pairs: seq<Pair>, clip: Option<Clip>)
    requires (head == "PU" || head == "PD" || head == "PA") && PlainPairs(pairs) && pairs != []
    requires |Spaced(head, pairs)| < MAX_JOB_BYTES
    ensures Ok(Spaced(head, pairs) + ";", clip) <==> Ok(head + PairsText(pairs) + ";", clip)
    ensures Tail(Spaced(head, pairs) + ";") == ""
  {
    var args := PairsText(pairs);
    PairsTextEnds(pairs);
    SpacedKind(head, pairs);
    OneInstruction(head + args, clip);
    OneInstruction(Spaced(head, pairs), clip);
    BlankControls(head, args + ";");
    OneToken(Spaced(head, pairs));
    assert head + args + ";" == head + (args + ";");
    assert Spaced(head, pairs) + ";" == head + " " + (args + ";");
  }
}
