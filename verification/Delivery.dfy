/** The executor's log under every schedule, for any instructions the validator lets through. */
module Delivery {
  import opened Text
  import opened Numbers
  import opened Device
  import opened Emulator

  ghost predicate LetterFree(s: string) { forall i :: 0 <= i < |s| ==> !IsAlpha(s[i]) }

  /** Any text without a terminator; only what follows a mover's mnemonic must be free of letters. */
  ghost predicate Deliverable(t: string) {
    ';' !in t && (IsMover(Mnemonic(t)) ==> LetterFree(t[2..]))
  }

  ghost predicate AllDeliverable(tokens: seq<string>) {
    forall i :: 0 <= i < |tokens| ==> Deliverable(tokens[i])
  }

  /** How an executed instruction appears in the log: as written, or, for a mover entered before
      its terminator had arrived, with its mnemonic in upper case. */
  predicate LoggedAs(t: string, entry: string) {
    entry == t + ";" || (IsMover(Mnemonic(t)) && entry == Mnemonic(t) + t[2..] + ";")
  }

  /** The log has grown by exactly these instructions, in order. */
  ghost predicate Logged(tokens: seq<string>, before: seq<string>, after: seq<string>) {
    && |after| == |before| + |tokens| && before <= after
    && forall k :: 0 <= k < |tokens| ==> LoggedAs(tokens[k], after[|before| + k])
  }

  /** Bytes that are still to be popped, with `i` instructions logged. */
  predicate Remaining(tokens: seq<string>, i: nat, p: Plotter, unsent: string)
    requires i <= |tokens|
  {
    if p.mover.None? then p.token == "" && p.inbuf + unsent == Terminate(tokens[i..])
    else
      && i < |tokens| && IsMover(Mnemonic(tokens[i]))
      && 2 <= |p.token| <= |tokens[i]|
      && p.token == Mnemonic(tokens[i]) + tokens[i][2..|p.token|]
      && p.inbuf + unsent == tokens[i][|p.token|..] + ";" + Terminate(tokens[i + 1..])
  }

  /** After `i` instructions: they are in the log, and the rest is in the plotter or on the line. */
  ghost predicate Follows(tokens: seq<string>, before: seq<string>, unsent: string, p: Plotter, i: nat) {
    i <= |tokens| && Logged(tokens[..i], before, p.commands) && Remaining(tokens, i, p, unsent)
  }

  // ---- bytes --------------------------------------------------------------------------

  /** Bytes in front of the first terminator belong to the instruction it ends. */
  lemma CutBefore(left: string, rest: string, inbuf: string, unsent: string, m: nat)
    requires inbuf + unsent == left + ";" + rest && m <= |inbuf| && ';' !in inbuf[..m]
    ensures m <= |left| && inbuf[..m] == left[..m]
    ensures inbuf[m..] + unsent == left[m..] + ";" + rest
  {
    var all := left + ";" + rest;
    assert all[|left|] == ';';
    forall k | 0 <= k < m ensures all[k] != ';' {
      assert all[k] == inbuf[k] == inbuf[..m][k];
    }
    assert m <= |left|;
    assert inbuf[..m] == all[..m] == left[..m];
    assert inbuf[m..] + unsent == all[m..] == left[m..] + ";" + rest;
  }

  lemma CutAt(left: string, rest: string, inbuf: string, unsent: string, m: nat)
    requires inbuf + unsent == left + ";" + rest && ';' !in left
    requires m < |inbuf| && ';' !in inbuf[..m] && inbuf[m] == ';'
    ensures m == |left| && inbuf[..m] == left && inbuf[m + 1..] + unsent == rest
  {
    CutBefore(left, rest, inbuf, unsent, m);
    var all := left + ";" + rest;
    forall k | 0 <= k < |left| ensures all[k] != ';' {
      assert all[k] == left[k];
    }
    assert all[m] == inbuf[m];
    var tail := inbuf[m..];
    assert tail[1..] + unsent == (tail + unsent)[1..];
  }

  lemma TerminateNext(tokens: seq<string>, i: nat)
    requires i < |tokens|
    ensures Terminate(tokens[i..]) == tokens[i] + ";" + Terminate(tokens[i + 1..])
  {
    assert tokens[i..][1..] == tokens[i + 1..];
  }

  lemma LoggedNext(tokens: seq<string>, i: nat, before: seq<string>, after: seq<string>, entry: string)
    requires i < |tokens| && Logged(tokens[..i], before, after) && LoggedAs(tokens[i], entry)
    ensures Logged(tokens[..i + 1], before, after + [entry])
  {
    var all := after + [entry];
    var grown := tokens[..i + 1];
    assert grown == tokens[..i] + [tokens[i]];
    forall k | 0 <= k < |grown| ensures LoggedAs(grown[k], all[|before| + k]) {
      if k < i {
        assert LoggedAs(tokens[..i][k], after[|before| + k]);
      }
    }
  }

  /** The pair pattern never looks past a terminator. */
  lemma MatchStops(s: string)
    requires MatchPair(s).Some?
    ensures ';' !in s[..MatchPair(s).value - 1]
  {
    var i := ScanNumber(s);
    var t := s[i + 1..];
    var j := ScanNumber(t);
    ScanCut(s);
    ScanCut(t);
    PlainCharacters(s[..i]);
    PlainCharacters(t[..j]);
    assert s[..i + 1 + j] == s[..i] + "," + t[..j];
  }

  lemma MnemonicSeen(t: string, s: string)
    requires s <= t && |s| >= 2
    ensures Mnemonic(s) == Mnemonic(t)
  {
    assert Prefix(s, 2) == Prefix(t, 2);
  }

  lemma MoverTextNotOutput(t: string, body: string)
    requires IsMover(Mnemonic(t))
    ensures Mnemonic(Mnemonic(t) + body) == Mnemonic(t) && !IsOutput(Mnemonic(t))
  {
    assert Prefix(Mnemonic(t) + body, 2) == Mnemonic(t) && Upper(Mnemonic(t)) == Mnemonic(t);
  }

  // ---- one pop ------------------------------------------------------------------------

  /** What one pop hands to the executor, and what it leaves. */
  datatype Popped = Nothing | Partial(token: string) | Whole(entry: string)

  /** A pop on the way through the instructions: nothing, part of a mover, or the next one whole. */
  ghost predicate PopsNext(tokens: seq<string>, i: nat, unsent: string, p: Plotter, q: Plotter, popped: Popped)
    requires i <= |tokens|
  {
    && q.commands == p.commands && q.replies == p.replies && q.dev == p.dev && q.halted == p.halted
    && match popped
       case Nothing => PopToken(p) == (None, q) && Remaining(tokens, i, q, unsent)
       case Partial(token) =>
         && PopToken(p) == (Some(token), q) && !Terminated(token) && Remaining(tokens, i, q, unsent)
         && i < |tokens| && IsMover(Mnemonic(tokens[i])) && Mnemonic(token) == Mnemonic(tokens[i])
       case Whole(entry) =>
         && PopToken(p) == (Some(entry), q) && Terminated(entry) && q.mover.None?
         && i < |tokens| && LoggedAs(tokens[i], entry) && Remaining(tokens, i + 1, q, unsent)
  }

  /** Inside a mover a terminator at the front ends it. */
  lemma PopLastByte(tokens: seq<string>, i: nat, unsent: string, p: Plotter)
    requires AllDeliverable(tokens) && i < |tokens| && p.mover.Some? && Remaining(tokens, i, p, unsent)
    requires p.inbuf != "" && p.inbuf[0] == ';'
    ensures PopsNext(tokens, i, unsent, p, PopPair(p).1, Whole(p.token + ";"))
  {
    var t := tokens[i];
    assert Deliverable(t);
    var left := t[|p.token|..];
    assert ';' !in left;
    CutAt(left, Terminate(tokens[i + 1..]), p.inbuf, unsent, 0);
    assert t[2..|p.token|] == t[2..];
  }

  lemma PopPairWithin(tokens: seq<string>, i: nat, unsent: string, p: Plotter, m: nat)
    requires AllDeliverable(tokens) && i < |tokens| && p.mover.Some? && Remaining(tokens, i, p, unsent)
    requires 0 < m <= |p.inbuf| && ';' !in p.inbuf[..m - 1] && p.inbuf[m - 1] == ','
    ensures var token := p.token + p.inbuf[..m];
      var q := p.(inbuf := p.inbuf[m..], token := token);
      && Remaining(tokens, i, q, unsent) && !Terminated(token) && Mnemonic(token) == Mnemonic(tokens[i])
  {
    var t := tokens[i];
    var n := |p.token|;
    var left := t[n..];
    assert p.inbuf[..m] == p.inbuf[..m - 1] + [','];
    CutBefore(left, Terminate(tokens[i + 1..]), p.inbuf, unsent, m);
    var token := p.token + p.inbuf[..m];
    assert t[2..n + m] == t[2..n] + left[..m];
    assert token == Mnemonic(t) + t[2..n + m];
    assert left[m..] == t[n + m..];
    assert token[|token| - 1] == ',';
    MoverTextNotOutput(t, t[2..n + m]);
  }

  lemma PopPairEnds(tokens: seq<string>, i: nat, unsent: string, p: Plotter, m: nat)
    requires AllDeliverable(tokens) && i < |tokens| && p.mover.Some? && Remaining(tokens, i, p, unsent)
    requires 0 < m <= |p.inbuf| && ';' !in p.inbuf[..m - 1] && p.inbuf[m - 1] == ';'
    ensures var token := p.token + p.inbuf[..m];
      var q := p.(inbuf := p.inbuf[m..], mover := None, token := "");
      && Remaining(tokens, i + 1, q, unsent) && Terminated(token) && LoggedAs(tokens[i], token)
  {
    var t := tokens[i];
    var n := |p.token|;
    assert Deliverable(t);
    CutAt(t[n..], Terminate(tokens[i + 1..]), p.inbuf, unsent, m - 1);
    var token := p.token + p.inbuf[..m];
    assert p.inbuf[..m] == t[n..] + ";";
    assert t[2..] == t[2..n] + t[n..];
    assert token == Mnemonic(t) + t[2..] + ";";
  }

  /** What an accepted mover shows at the front is never a letter. */
  lemma NoLetterAhead(tokens: seq<string>, i: nat, unsent: string, p: Plotter)
    requires AllDeliverable(tokens) && i < |tokens| && p.mover.Some? && Remaining(tokens, i, p, unsent)
    requires p.inbuf != ""
    ensures !IsAlpha(p.inbuf[0])
  {
    var t := tokens[i];
    var left := t[|p.token|..];
    assert Deliverable(t);
    assert p.inbuf[0] == (p.inbuf + unsent)[0];
    if left != "" {
      assert (left + ";" + Terminate(tokens[i + 1..]))[0] == left[0] == t[2..][|p.token| - 2];
    }
  }

  /** One pop inside a mover. */
  lemma PopInside(tokens: seq<string>, i: nat, unsent: string, p: Plotter) returns (popped: Popped)
    requires AllDeliverable(tokens) && i < |tokens| && p.mover.Some? && Remaining(tokens, i, p, unsent)
    ensures PopsNext(tokens, i, unsent, p, PopPair(p).1, popped)
  {
    var head := Prefix(p.inbuf, PAIR_WINDOW);
    assert head <= p.inbuf;
    if head != "" && head[0] == ';' {
      PopLastByte(tokens, i, unsent, p);
      return Whole(p.token + ";");
    }
    if MatchPair(head).Some? {
      var m := MatchPair(head).value;
      MatchStops(head);
      assert head[..m - 1] == p.inbuf[..m - 1];
      popped := PopMatch(tokens, i, unsent, p, m);
    } else {
      if head != "" {
        NoLetterAhead(tokens, i, unsent, p);
      }
      popped := Nothing;
    }
  }

  lemma PopMatch(tokens: seq<string>, i: nat, unsent: string, p: Plotter, m: nat) returns (popped: Popped)
    requires AllDeliverable(tokens) && i < |tokens| && p.mover.Some? && Remaining(tokens, i, p, unsent)
    requires var head := Prefix(p.inbuf, PAIR_WINDOW);
      head != "" && head[0] != ';' && MatchPair(head) == Some(m)
    requires m <= |p.inbuf| && ';' !in p.inbuf[..m - 1]
    ensures PopsNext(tokens, i, unsent, p, PopPair(p).1, popped)
  {
    var token := p.token + p.inbuf[..m];
    if p.inbuf[m - 1] == ';' {
      PopPairEnds(tokens, i, unsent, p, m);
      popped := Whole(token);
    } else {
      PopPairWithin(tokens, i, unsent, p, m);
      popped := Partial(token);
    }
  }

  /** A terminator in the buffer: the next instruction pops whole. */
  lemma PopArrived(tokens: seq<string>, i: nat, unsent: string, p: Plotter)
    requires AllDeliverable(tokens) && i < |tokens| && p.mover.None? && Remaining(tokens, i, p, unsent)
    requires ';' in p.inbuf
    ensures PopsNext(tokens, i, unsent, p, PopToken(p).1, Whole(tokens[i] + ";"))
  {
    var idx := Find(p.inbuf, ';', 0, |p.inbuf|);
    assert p.inbuf[0..|p.inbuf|] == p.inbuf;
    TerminateNext(tokens, i);
    assert Deliverable(tokens[i]);
    assert p.inbuf[0..idx] == p.inbuf[..idx];
    CutAt(tokens[i], Terminate(tokens[i + 1..]), p.inbuf, unsent, idx);
    assert p.inbuf[..idx + 1] == tokens[i] + ";";
  }

  /** A mover whose head has arrived is entered. */
  lemma EnterRemaining(tokens: seq<string>, i: nat, unsent: string, p: Plotter)
    requires AllDeliverable(tokens) && i < |tokens| && p.mover.None? && Remaining(tokens, i, p, unsent)
    requires ';' !in p.inbuf && |p.inbuf| > 2 && IsMover(Mnemonic(p.inbuf))
    ensures Remaining(tokens, i, Entered(p), unsent) && IsMover(Mnemonic(tokens[i]))
  {
    var t := tokens[i];
    TerminateNext(tokens, i);
    assert p.inbuf[..|p.inbuf|] == p.inbuf;
    CutBefore(t, Terminate(tokens[i + 1..]), p.inbuf, unsent, |p.inbuf|);
    assert ';' !in p.inbuf[..2];
    CutBefore(t, Terminate(tokens[i + 1..]), p.inbuf, unsent, 2);
    MnemonicSeen(t, p.inbuf);
    assert Mnemonic(t) == Mnemonic(t) + t[2..2];
  }

  /** One pop, wherever the run has come to. */
  lemma PopFollows(tokens: seq<string>, i: nat, unsent: string, p: Plotter) returns (popped: Popped)
    requires AllDeliverable(tokens) && i <= |tokens| && Remaining(tokens, i, p, unsent)
    ensures PopsNext(tokens, i, unsent, p, PopToken(p).1, popped)
    ensures p.mover.None? && popped.Nothing? ==> PopToken(p).1 == p || (i < |tokens| && IsMover(Mnemonic(tokens[i])))
  {
    assert p.inbuf[0..|p.inbuf|] == p.inbuf;
    if p.mover.Some? {
      popped := PopInside(tokens, i, unsent, p);
    } else if i == |tokens| {
      assert p.inbuf == "";
      popped := Nothing;
    } else if ';' in p.inbuf {
      PopArrived(tokens, i, unsent, p);
      popped := Whole(tokens[i] + ";");
    } else if |p.inbuf| > 2 && IsMover(Mnemonic(p.inbuf)) {
      EnterRemaining(tokens, i, unsent, p);
      popped := PopInside(tokens, i, unsent, Entered(p));
    } else {
      popped := Nothing;
    }
  }

  // ---- one round ----------------------------------------------------------------------

  /** The effect of executing a logged instruction on what is visible. */
  ghost predicate Executes(p: Plotter, q: Plotter, entry: string) {
    match Execute(p.dev, entry)
    case Crash => q.halted && q.dev == p.dev && q.replies == p.replies
    case Effect(dev, reply) =>
      q.halted == p.halted && q.dev == dev && q.replies == if reply.Some? then p.replies + [reply.value] else p.replies
  }

  /** What one round does: nothing to the log, or one more instruction executed. */
  datatype Round = Same | Next(entry: string)

  lemma SettleWholeFollows(tokens: seq<string>, before: seq<string>, unsent: string, p: Plotter, i: nat, q: Plotter,
                           entry: string)
    requires Follows(tokens, before, unsent, p, i)
    requires PopsNext(tokens, i, unsent, p, q, Whole(entry))
    ensures Follows(tokens, before, unsent, Settle(q, entry), i + 1) && Executes(p, Settle(q, entry), entry)
  {
    LoggedNext(tokens, i, before, p.commands, entry);
  }

  lemma SettlePartialFollows(tokens: seq<string>, before: seq<string>, unsent: string, p: Plotter, i: nat, q: Plotter,
                             token: string)
    requires Follows(tokens, before, unsent, p, i)
    requires PopsNext(tokens, i, unsent, p, q, Partial(token))
    ensures Follows(tokens, before, unsent, Settle(q, token), i) && Settle(q, token).replies == p.replies
  {
    OnlyOutputsReply(p.dev, token);
  }

  /** One round of the executor. */
  lemma WorkFollows(tokens: seq<string>, before: seq<string>, unsent: string, p: Plotter, i: nat) returns (r: Round)
    requires AllDeliverable(tokens) && Follows(tokens, before, unsent, p, i)
    ensures Follows(tokens, before, unsent, Work(p), if r.Next? then i + 1 else i)
    ensures r.Same? ==> Work(p).replies == p.replies
    ensures r.Same? ==> Work(p) == p || (i < |tokens| && IsMover(Mnemonic(tokens[i])))
    ensures r.Next? ==> i < |tokens| && LoggedAs(tokens[i], r.entry) && Executes(p, Work(p), r.entry)
    ensures r.Next? ==> Work(p).mover.None?
  {
    if p.halted {
      return Same;
    }
    var popped := PopFollows(tokens, i, unsent, p);
    var q := PopToken(p).1;
    match popped {
      case Nothing => r := Same;
      case Partial(token) =>
        SettlePartialFollows(tokens, before, unsent, p, i, q, token);
        r := Same;
      case Whole(entry) =>
        SettleWholeFollows(tokens, before, unsent, p, i, q, entry);
        r := Next(entry);
    }
  }

  // ---- schedules ----------------------------------------------------------------------

  lemma ArriveFollows(tokens: seq<string>, before: seq<string>, unsent: string, p: Plotter, i: nat, n: nat)
    requires Follows(tokens, before, unsent, p, i)
    ensures var k := Arrival(p, unsent, n);
      && Accept(p, unsent[..k]) == p.(inbuf := p.inbuf + unsent[..k])
      && Follows(tokens, before, unsent[k..], Accept(p, unsent[..k]), i)
  {
    var k := Arrival(p, unsent, n);
    AcceptFits(p, unsent[..k]);
    ArrivalBytes(p.inbuf, unsent, k);
  }

  /** Under every schedule the log is exactly the instructions taken so far, in order, and token,
      buffer and line spell the others. */
  lemma {:induction false} PlayFollows(
    tokens: seq<string>, before: seq<string>, unsent: string, p: Plotter, i: nat, turns: seq<Turn>) returns (j: nat)
    requires AllDeliverable(tokens) && Follows(tokens, before, unsent, p, i)
    ensures var (q, left) := Play(p, unsent, turns); Follows(tokens, before, left, q, j)
    ensures i <= j
    decreases |turns|
  {
    if turns == [] {
      j := i;
    } else {
      match turns[0] {
        case Arrive(n) =>
          var k := Arrival(p, unsent, n);
          ArriveFollows(tokens, before, unsent, p, i, n);
          j := PlayFollows(tokens, before, unsent[k..], Accept(p, unsent[..k]), i, turns[1..]);
        case Execute1 =>
          var r := WorkFollows(tokens, before, unsent, p, i);
          j := PlayFollows(tokens, before, unsent, Work(p), if r.Next? then i + 1 else i, turns[1..]);
      }
    }
  }

  lemma StartFollows(tokens: seq<string>, p: Plotter)
    requires p.mover.None? && p.token == "" && p.inbuf == ""
    ensures Follows(tokens, p.commands, Terminate(tokens), p, 0)
  {
    assert tokens[0..] == tokens && tokens[..0] == [];
    assert "" + Terminate(tokens) == Terminate(tokens);
  }

  lemma JoinTexts(bytes: string, unsent: string, left: string, rest: string, more: string)
    requires bytes + unsent == left + rest
    ensures bytes + (unsent + more) == left + (rest + more)
  {
    assert bytes + (unsent + more) == (bytes + unsent) + more;
    assert left + (rest + more) == (left + rest) + more;
  }

  lemma MoreRemaining(tokens: seq<string>, more: seq<string>, i: nat, p: Plotter, unsent: string)
    requires i <= |tokens| && Remaining(tokens, i, p, unsent)
    ensures Remaining(tokens + more, i, p, unsent + Terminate(more))
  {
    var all := tokens + more;
    if p.mover.None? {
      assert all[i..] == tokens[i..] + more;
      TerminateAppend(tokens[i..], more);
      JoinTexts(p.inbuf, unsent, "", Terminate(tokens[i..]), Terminate(more));
    } else {
      var rest := tokens[i + 1..];
      assert all[i] == tokens[i] && all[i + 1..] == rest + more;
      TerminateAppend(rest, more);
      JoinTexts(p.inbuf, unsent, tokens[i][|p.token|..] + ";", Terminate(rest), Terminate(more));
    }
  }

  /** More instructions behind the ones on their way. */
  lemma MoreFollows(tokens: seq<string>, more: seq<string>, before: seq<string>, unsent: string, p: Plotter, i: nat)
    requires Follows(tokens, before, unsent, p, i)
    ensures Follows(tokens + more, before, unsent + Terminate(more), p, i)
  {
    assert (tokens + more)[..i] == tokens[..i];
    MoreRemaining(tokens, more, i, p, unsent);
  }

  // ---- waiting for ever ---------------------------------------------------------------

  /** What a coordinate pair cannot start with, and the executor does not resynchronise at. */
  predicate Blocks(c: char) { c != ';' && c != '-' && !IsDigit(c) && !IsAlpha(c) }

  /** In the middle of a mover whose next byte fits nothing. */
  predicate Stalled(p: Plotter) { !p.halted && p.mover.Some? && p.inbuf != "" && Blocks(p.inbuf[0]) }

  lemma StalledWaits(p: Plotter)
    requires Stalled(p)
    ensures Work(p) == p
  {
    var head := Prefix(p.inbuf, PAIR_WINDOW);
    assert head[0] == p.inbuf[0];
    assert DigitsEnd(head, 0) == 0;
  }

  /** Whatever arrives, a stalled executor executes, logs and answers nothing any more. */
  lemma {:induction false} StalledForever(p: Plotter, unsent: string, turns: seq<Turn>)
    requires Stalled(p)
    ensures var q := Play(p, unsent, turns).0;
      Stalled(q) && q.commands == p.commands && q.replies == p.replies && q.dev.x == p.dev.x && q.dev.y == p.dev.y
    decreases |turns|
  {
    hide Work;
    if turns != [] {
      match turns[0] {
        case Arrive(n) =>
          var k := Arrival(p, unsent, n);
          StalledForever(Accept(p, unsent[..k]), unsent[k..], turns[1..]);
        case Execute1 =>
          StalledWaits(p);
          StalledForever(Work(p), unsent, turns[1..]);
      }
    }
  }

  /** A mover with such a byte behind its mnemonic stalls when its first three bytes come alone. */
  lemma EntersStalled(p: Plotter, text: string)
    requires Idle(p) && |text| >= 3 && IsMover(Mnemonic(text)) && Blocks(text[2])
    requires ';' !in text[..2]
    ensures var (q, left) := Play(p, text, [Arrive(3), Execute1]);
      Stalled(q) && q.commands == p.commands && q.replies == p.replies && left == text[3..]
  {
    hide Work;
    var first := text[..3];
    var q := Accept(p, first);
    assert first == text[..2] + [text[2]] && Prefix(first, 2) == Prefix(text, 2);
    assert [Arrive(3), Execute1][1..] == [Execute1] && [Execute1][1..] == [];
    assert Play(p, text, [Arrive(3), Execute1]) == Play(q, text[3..], [Execute1]);
    assert Play(q, text[3..], [Execute1]) == (Work(q), text[3..]);
    WorkEnters(q);
    assert Entered(q).inbuf == [text[2]];
    StalledWaits(Entered(q));
  }

  /** When everything has arrived and a round does nothing, either every instruction is in the log
      or the executor waits in a mover whose next bytes are no pair. */
  lemma WaitsInMover(tokens: seq<string>, before: seq<string>, q: Plotter, j: nat)
    requires AllDeliverable(tokens) && Follows(tokens, before, "", q, j) && !q.halted && Work(q) == q
    ensures j == |tokens| ||
      (q.mover.Some? && IsMover(Mnemonic(tokens[j])) && MatchPair(Prefix(q.inbuf, PAIR_WINDOW)).None?)
  {
    hide Execute, MatchPair;
    if j < |tokens| && q.mover.None? {
      WholeAhead(tokens, q, j);
    }
  }

  lemma WholeAhead(tokens: seq<string>, q: Plotter, j: nat)
    requires j < |tokens| && !q.halted && q.mover.None? && Remaining(tokens, j, q, "")
    ensures Work(q) != q
  {
    hide Execute, MatchPair;
    TerminateNext(tokens, j);
    assert q.inbuf == tokens[j] + ";" + Terminate(tokens[j + 1..]);
    assert q.inbuf[|tokens[j]|] == ';';
    var (token, p') := PopToken(q);
    assert token.Some? && |p'.inbuf| < |q.inbuf|;
  }

  /** A letter inside a mover: the mover is abandoned, nothing is executed or logged, and the next error
      query answers 1. */
  lemma AbandonsAtLetter(p: Plotter)
    requires !p.halted && p.mover.Some? && p.inbuf != "" && IsAlpha(p.inbuf[0])
    ensures Work(p) == p.(mover := None, token := "", dev := p.dev.(hpglError := 1))
    ensures Execute(Work(p).dev, "OE;").reply == Some("1")
  {
    LetterIsNoPair(Prefix(p.inbuf, PAIR_WINDOW));
    ErrorIsReadOnce(p.dev.(hpglError := 1));
    assert IntText(1) == "1";
  }

  lemma LetterIsNoPair(s: string)
    requires s != "" && IsAlpha(s[0])
    ensures MatchPair(s).None? && s[0] != ';'
  {
  }
}
