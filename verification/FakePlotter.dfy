/** The emulated plotter as an object: the reader and the executor update its fields. */
module FakePlotter {
  import opened Protocol
  import opened Text
  import opened Numbers
  import opened ControlChannel
  import opened Device
  import opened Emulator

  // ---- escapes ------------------------------------------------------------------------

  const SPACE_ESCAPE: string := [ESC] + ".B"
  const ERROR_ESCAPE: string := [ESC] + ".E"

  /** The reply line of one escape; reading the extended error clears it. */
  function AnswerEscape(p: Plotter, token: string): Plotter {
    if SPACE_ESCAPE <= token then
      var free := if |p.inbuf| < INPUT_BUFFER_BYTES then INPUT_BUFFER_BYTES - |p.inbuf| else 0;
      p.(replies := p.replies + [IntText(free)])
    else if ERROR_ESCAPE <= token then
      p.(replies := p.replies + [IntText(p.dev.rs232Error)], dev := p.dev.(rs232Error := 0))
    else p
  }

  function AnswerEscapes(p: Plotter, tokens: seq<string>): Plotter
    decreases |tokens|
  {
    if tokens == [] then p else AnswerEscapes(AnswerEscape(p, tokens[0]), tokens[1..])
  }

  /** One read: escapes are taken out, the graphics bytes buffered, then the escapes answered. */
  function ReadBlock(pending: string, p: Plotter, data: string): (string, Plotter) {
    var parsed := Demux(pending + data);
    (parsed.pending, AnswerEscapes(Accept(p, parsed.graphics), parsed.escapes))
  }

  lemma {:induction false} SpaceRepliesRepeat(p: Plotter, tokens: seq<string>)
    requires |p.inbuf| <= INPUT_BUFFER_BYTES
    requires forall i :: 0 <= i < |tokens| ==> tokens[i] == ASK_SPACE
    ensures var q := AnswerEscapes(p, tokens);
      && q == p.(replies := q.replies)
      && |q.replies| == |p.replies| + |tokens|
      && q.replies[..|p.replies|] == p.replies
      && forall i :: |p.replies| <= i < |q.replies| ==> q.replies[i] == IntText(INPUT_BUFFER_BYTES - |p.inbuf|)
    decreases |tokens|
  {
    if tokens != [] {
      assert ASK_SPACE == SPACE_ESCAPE + ";";
      assert SPACE_ESCAPE <= tokens[0];
      var p1 := AnswerEscape(p, tokens[0]);
      SpaceRepliesRepeat(p1, tokens[1..]);
      var q := AnswerEscapes(p, tokens);
      assert q.replies[..|p.replies|] == q.replies[..|p1.replies|][..|p.replies|];
      assert q.replies[|p.replies|] == q.replies[..|p1.replies|][|p.replies|];
    }
  }

  /** Free-space replies of a block count the room left after the whole block is buffered:
      however payload and queries are interleaved in it, the reply line reads back as exactly
      the free bytes, and the queries themselves take no room. */
  lemma SpaceRepliesAreExact(p: Plotter, items: seq<Item>)
    requires forall i :: 0 <= i < |items| ==> GoodItem(items[i]) && (items[i].Escape? ==> items[i].token == ASK_SPACE)
    requires |p.inbuf| + |DataOf(items)| <= INPUT_BUFFER_BYTES
    ensures var (pending, q) := ReadBlock("", p, Mux(items));
      var free := INPUT_BUFFER_BYTES - |p.inbuf| - |DataOf(items)|;
      && pending == "" && q.inbuf == p.inbuf + DataOf(items)
      && |q.replies| == |p.replies| + |EscapesOf(items)|
      && forall i :: |p.replies| <= i < |q.replies| ==> Number(q.replies[i]) == Some(free as real)
  {
    DemuxMux(items);
    assert "" + Mux(items) == Mux(items);
    OnlySpaceQueries(items);
    var accepted := Accept(p, DataOf(items));
    SpaceRepliesRepeat(accepted, EscapesOf(items));
    IntRoundTrip(INPUT_BUFFER_BYTES - |accepted.inbuf|);
  }

  lemma {:induction false} OnlySpaceQueries(items: seq<Item>)
    requires forall i :: 0 <= i < |items| && items[i].Escape? ==> items[i].token == ASK_SPACE
    ensures forall i :: 0 <= i < |EscapesOf(items)| ==> EscapesOf(items)[i] == ASK_SPACE
  {
    if items != [] {
      OnlySpaceQueries(items[1..]);
    }
  }

  /** The reply to an error query. */
  function ErrorReply(p: Plotter): string {
    var q := AnswerEscape(p, ASK_ERROR);
    if |q.replies| == |p.replies| + 1 then q.replies[|p.replies|] else ""
  }

  /** Bytes beyond the buffer's 1024 are dropped, and exactly then the next error query answers 16; an
      error is reported once. */
  lemma OverflowIsReportedOnce(p: Plotter, bytes: string)
    requires |p.inbuf| <= 1024
    ensures var q := Accept(p, bytes);
      var fits := |p.inbuf| + |bytes| <= 1024;
      && q.inbuf == p.inbuf + (if fits then bytes else bytes[..1024 - |p.inbuf|])
      && ErrorReply(q) == (if fits then IntText(p.dev.rs232Error) else "16")
      && ErrorReply(AnswerEscape(q, ASK_ERROR)) == "0"
  {
    hide IntText;
    assert ASK_ERROR == ERROR_ESCAPE + ";" && ASK_ERROR[2] == 'E' && SPACE_ESCAPE[2] == 'B';
    assert IntText(16) == "16" && IntText(0) == "0" by { SixteenAndNothing(); }
  }

  lemma SixteenAndNothing()
    ensures IntText(16) == "16" && IntText(0) == "0"
  {
    assert NatText(1) == "1";
  }

  // ---- conservation -------------------------------------------------------------------

  /** Everything accepted: executed, half executed, waiting. */
  function Ledger(p: Plotter): string { Concat(p.commands) + (p.token + p.inbuf) }

  /** The executor is about to give up on a mover, or to rewrite a lower-case mnemonic. */
  predicate Rewrites(p: Plotter) {
    if p.mover.Some? then p.inbuf != "" && IsAlpha(p.inbuf[0])
    else
      && ';' !in p.inbuf && |p.inbuf| > 2 && IsMover(Mnemonic(p.inbuf))
      && (Mnemonic(p.inbuf) != Prefix(p.inbuf, 2) || IsAlpha(p.inbuf[2]))
  }

  /** What a pop hands on is exactly what it takes away. */
  ghost predicate Conserves(p: Plotter, token: Option<string>, q: Plotter) {
    && (q.mover.None? ==> q.token == "")
    && q.commands == p.commands
    && (if token.Some? && Terminated(token.value) then token.value + (q.token + q.inbuf) == p.token + p.inbuf
        else q.token + q.inbuf == p.token + p.inbuf)
  }

  lemma EnterConserves(p: Plotter)
    requires p.mover.None? && p.token == "" && |p.inbuf| > 2 && Mnemonic(p.inbuf) == Prefix(p.inbuf, 2)
    ensures Entered(p).token + Entered(p).inbuf == p.token + p.inbuf
  {
    assert p.inbuf == p.inbuf[..2] + p.inbuf[2..];
  }

  lemma PopWholeConserves(p: Plotter, idx: nat)
    requires p.mover.None? && p.token == "" && idx < |p.inbuf| && p.inbuf[idx] == ';'
    ensures Conserves(p, Some(p.inbuf[..idx + 1]), p.(inbuf := p.inbuf[idx + 1..]))
  {
    assert p.inbuf == p.inbuf[..idx + 1] + p.inbuf[idx + 1..];
    assert "" + p.inbuf[idx + 1..] == p.inbuf[idx + 1..] && "" + p.inbuf == p.inbuf;
  }

  lemma PopTerminated(p: Plotter)
    requires p.mover.None? && p.token == "" && ';' in p.inbuf
    ensures Conserves(p, PopToken(p).0, PopToken(p).1)
  {
    assert p.inbuf[0..|p.inbuf|] == p.inbuf;
    PopWholeConserves(p, Find(p.inbuf, ';', 0, |p.inbuf|));
  }

  lemma PopUnterminated(p: Plotter)
    requires p.mover.None? && p.token == "" && ';' !in p.inbuf && !Rewrites(p)
    ensures Conserves(p, PopToken(p).0, PopToken(p).1)
  {
    assert p.inbuf[0..|p.inbuf|] == p.inbuf;
    if IsMover(Mnemonic(p.inbuf)) && |p.inbuf| > 2 {
      EnterConserves(p);
      PopPairConserves(Entered(p));
    }
  }

  lemma PopConserves(p: Plotter)
    requires !Rewrites(p) && (p.mover.None? ==> p.token == "")
    ensures Conserves(p, PopToken(p).0, PopToken(p).1)
  {
    if p.mover.Some? {
      PopPairConserves(p);
    } else if ';' in p.inbuf {
      PopTerminated(p);
    } else {
      PopUnterminated(p);
    }
  }

  lemma PopBareTerminator(p: Plotter)
    requires p.inbuf != "" && p.inbuf[0] == ';'
    ensures Conserves(p, Some(p.token + ";"), p.(inbuf := p.inbuf[1..], mover := None, token := ""))
  {
    assert p.token + p.inbuf == (p.token + ";") + ("" + p.inbuf[1..]);
  }

  lemma PopMatched(p: Plotter, n: nat)
    requires p.mover.Some? && 0 < n <= |p.inbuf| && (p.inbuf[n - 1] == ';' || p.inbuf[n - 1] == ',')
    ensures var token := p.token + p.inbuf[..n];
      Conserves(p, Some(token),
        if p.inbuf[n - 1] == ';' then p.(inbuf := p.inbuf[n..], mover := None, token := "")
        else p.(inbuf := p.inbuf[n..], token := token))
  {
    var token := p.token + p.inbuf[..n];
    assert token[|token| - 1] == p.inbuf[n - 1];
    assert p.token + p.inbuf == token + p.inbuf[n..];
    assert "" + p.inbuf[n..] == p.inbuf[n..];
  }

  lemma PopPairConserves(p: Plotter)
    requires p.mover.Some? && !(p.inbuf != "" && IsAlpha(p.inbuf[0]))
    ensures Conserves(p, PopPair(p).0, PopPair(p).1)
  {
    var head := Prefix(p.inbuf, PAIR_WINDOW);
    if head != "" && head[0] == ';' {
      PopBareTerminator(p);
    } else if MatchPair(head).Some? {
      PopMatched(p, MatchPair(head).value);
    }
  }

  lemma SettleLedger(p: Plotter, token: string)
    ensures var q := Settle(p, token);
      q.commands == (if Terminated(token) then p.commands + [token] else p.commands)
      && q.token == p.token && q.inbuf == p.inbuf
  {
  }

  lemma SettledLedger(p: Plotter, token: string, q: Plotter)
    requires Conserves(p, Some(token), q)
    ensures Ledger(Settle(q, token)) == Ledger(p)
  {
    hide Settle, Execute, Concat;
    SettleLedger(q, token);
    ConcatSnoc(p.commands, token);
    assert (Concat(p.commands) + token) + (q.token + q.inbuf) == Concat(p.commands) + (token + (q.token + q.inbuf));
  }

  /** A round neither loses nor invents a byte: log, pending token and buffer together keep
      spelling out everything that was accepted. */
  lemma WorkConserves(p: Plotter)
    requires !Rewrites(p) && (p.mover.None? ==> p.token == "")
    ensures Ledger(Work(p)) == Ledger(p)
  {
    PopConserves(p);
    if !p.halted && PopToken(p).0.Some? {
      SettledLedger(p, PopToken(p).0.value, PopToken(p).1);
    }
  }

  lemma DifferentMiddle(done: string, a: string, b: string)
    requires a != b
    ensures done + a != done + b
  {
    assert (done + a)[|done|..] == a && (done + b)[|done|..] == b;
  }

  lemma AbandonLedger(p: Plotter)
    requires p.mover.Some? && !p.halted && p.inbuf != "" && IsAlpha(p.inbuf[0])
    ensures Ledger(Work(p)) == Concat(p.commands) + ("" + p.inbuf)
  {
    hide Concat, Execute;
    var head := Prefix(p.inbuf, PAIR_WINDOW);
    assert head[0] == p.inbuf[0] && DigitsEnd(head, 0) == 0;
    assert MatchPair(head).None?;
  }

  /** A mover abandoned at a letter takes its pending token with it. */
  lemma AbandonLoses(p: Plotter)
    requires p.mover.Some? && !p.halted && p.token != "" && p.inbuf != "" && IsAlpha(p.inbuf[0])
    ensures Ledger(Work(p)) != Ledger(p)
  {
    hide Concat, Work;
    AbandonLedger(p);
    assert |"" + p.inbuf| < |p.token + p.inbuf|;
    DifferentMiddle(Concat(p.commands), "" + p.inbuf, p.token + p.inbuf);
  }

  /** A mover entered in lower case is rewritten, one with a letter behind its mnemonic abandoned. */
  lemma EnteringRewrites(p: Plotter)
    requires p.mover.None? && p.token == "" && !p.halted && Rewrites(p)
    ensures Ledger(Work(p)) != Ledger(p)
  {
    hide Concat, Execute, Work;
    WorkEnters(p);
    var e := Entered(p);
    var done := Concat(p.commands);
    if IsAlpha(e.inbuf[0]) {
      AbandonLedger(e);
      assert |"" + e.inbuf| < |"" + p.inbuf|;
      DifferentMiddle(done, "" + e.inbuf, "" + p.inbuf);
    } else {
      WorkConserves(e);
      assert (e.token + e.inbuf)[..2] == Mnemonic(p.inbuf) && ("" + p.inbuf)[..2] == Prefix(p.inbuf, 2);
      DifferentMiddle(done, e.token + e.inbuf, "" + p.inbuf);
    }
  }

  /** The exact condition: a round keeps every byte if and only if it neither abandons nor rewrites
      a mover. */
  lemma WorkConservesExactly(p: Plotter)
    requires p.mover.None? <==> p.token == ""
    ensures Ledger(Work(p)) == Ledger(p) <==> p.halted || !Rewrites(p)
  {
    hide Ledger, Rewrites, Work;
    if p.halted {
      HaltedRests(p);
    } else if !Rewrites(p) {
      WorkConserves(p);
    } else if p.mover.Some? {
      RewritesInside(p);
      AbandonLoses(p);
    } else {
      EnteringRewrites(p);
    }
  }

  lemma HaltedRests(p: Plotter)
    requires p.halted
    ensures Work(p) == p
  {
  }

  lemma RewritesInside(p: Plotter)
    requires p.mover.Some? && Rewrites(p)
    ensures p.inbuf != "" && IsAlpha(p.inbuf[0])
  {
  }

  /** No round of the schedule abandons or rewrites a mover. */
  ghost predicate NeverRewrites(p: Plotter, unsent: string, turns: seq<Turn>)
    decreases |turns|
  {
    turns == [] ||
    match turns[0]
    case Arrive(n) =>
      var k := Arrival(p, unsent, n);
      NeverRewrites(Accept(p, unsent[..k]), unsent[k..], turns[1..])
    case Execute1 => !Rewrites(p) && NeverRewrites(Work(p), unsent, turns[1..])
  }

  lemma LedgerArrives(done: string, token: string, inbuf: string, a: string, b: string)
    ensures (done + (token + (inbuf + a))) + b == (done + (token + inbuf)) + (a + b)
  {
  }

  lemma ArriveLedger(p: Plotter, unsent: string, n: nat)
    ensures var k := Arrival(p, unsent, n);
      Ledger(Accept(p, unsent[..k])) + unsent[k..] == Ledger(p) + unsent
  {
    hide Concat;
    var k := Arrival(p, unsent, n);
    AcceptFits(p, unsent[..k]);
    LedgerArrives(Concat(p.commands), p.token, p.inbuf, unsent[..k], unsent[k..]);
    assert unsent[..k] + unsent[k..] == unsent;
  }

  lemma WorkTidy(p: Plotter)
    requires !Rewrites(p) && (p.mover.None? ==> p.token == "")
    ensures Work(p).mover.None? ==> Work(p).token == ""
  {
    PopConserves(p);
  }

  /** Over every schedule: log, pending token, buffer and line together spell out exactly what they
      did at the start, byte for byte. */
  lemma {:induction false} PlayConserves(p: Plotter, unsent: string, turns: seq<Turn>)
    requires NeverRewrites(p, unsent, turns) && (p.mover.None? ==> p.token == "")
    ensures var (q, left) := Play(p, unsent, turns); Ledger(q) + left == Ledger(p) + unsent
    decreases |turns|
  {
    hide Ledger, Rewrites, Work, Accept;
    if turns != [] {
      match turns[0] {
        case Arrive(n) =>
          var k := Arrival(p, unsent, n);
          ArriveLedger(p, unsent, n);
          AcceptFits(p, unsent[..k]);
          PlayConserves(Accept(p, unsent[..k]), unsent[k..], turns[1..]);
        case Execute1 =>
          WorkConserves(p);
          WorkTidy(p);
          PlayConserves(Work(p), unsent, turns[1..]);
      }
    }
  }

  // ---- the object ---------------------------------------------------------------------

  class FakeHP7475A {
    var inbuf: string
    var pendingCtl: string
    var pendingMover: Option<string>
    var pendingToken: string
    var dev: Device
    var commands: seq<string>
    var replies: seq<string>
    var halted: bool

    constructor ()
      ensures Snapshot() == Plotter("", None, "", PowerUp(A4_CLIP), [], [], false) && pendingCtl == ""
    {
      inbuf, pendingCtl, pendingMover, pendingToken := "", "", None, "";
      dev, commands, replies, halted := PowerUp(A4_CLIP), [], [], false;
    }

    function Snapshot(): Plotter
      reads this
    {
      Plotter(inbuf, pendingMover, pendingToken, dev, commands, replies, halted)
    }

    method Receive(graphics: string)
      modifies this`inbuf, this`dev
      ensures Snapshot() == Accept(old(Snapshot()), graphics)
    {
      var room := if |inbuf| < INPUT_BUFFER_BYTES then INPUT_BUFFER_BYTES - |inbuf| else 0;
      var take := if |graphics| < room then |graphics| else room;
      if take < |graphics| {
        dev := dev.(rs232Error := OVERFLOW_ERROR);
      }
      inbuf := inbuf + graphics[..take];
    }

    /** The reader thread on one block from the line. */
    method Reader(data: string)
      modifies this
      ensures (pendingCtl, Snapshot()) == ReadBlock(old(pendingCtl), old(Snapshot()), data)
    {
      var parsed := SplitControlChannel(pendingCtl + data);
      pendingCtl := parsed.pending;
      Receive(parsed.graphics);
      ghost var accepted := Snapshot();
      var i := 0;
      while i < |parsed.escapes|
        invariant 0 <= i <= |parsed.escapes|
        invariant pendingCtl == parsed.pending
        invariant AnswerEscapes(accepted, parsed.escapes) == AnswerEscapes(Snapshot(), parsed.escapes[i..])
      {
        var token := parsed.escapes[i];
        if SPACE_ESCAPE <= token {
          var free := if |inbuf| < INPUT_BUFFER_BYTES then INPUT_BUFFER_BYTES - |inbuf| else 0;
          replies := replies + [IntText(free)];
        } else if ERROR_ESCAPE <= token {
          replies := replies + [IntText(dev.rs232Error)];
          dev := dev.(rs232Error := 0);
        }
        i := i + 1;
        assert parsed.escapes[i - 1..][1..] == parsed.escapes[i..];
      }
    }

    method TakePair() returns (token: Option<string>)
      modifies this`inbuf, this`pendingMover, this`pendingToken, this`dev
      ensures (token, Snapshot()) == PopPair(old(Snapshot()))
    {
      hide MatchPair, IsAlpha;
      var head := Prefix(inbuf, PAIR_WINDOW);
      if head != "" && head[0] == ';' {
        token := Some(pendingToken + ";");
        inbuf := inbuf[1..];
        pendingMover, pendingToken := None, "";
        return;
      }
      var m := MatchPair(head);
      if m.Some? {
        pendingToken := pendingToken + inbuf[..m.value];
        inbuf := inbuf[m.value..];
        token := Some(pendingToken);
        if head[m.value - 1] == ';' {
          pendingMover, pendingToken := None, "";
        }
        return;
      }
      if head != "" && IsAlpha(head[0]) {
        dev := dev.(hpglError := 1);
        pendingMover, pendingToken := None, "";
      }
      token := None;
    }

    method TakeToken() returns (token: Option<string>)
      modifies this`inbuf, this`pendingMover, this`pendingToken, this`dev
      ensures (token, Snapshot()) == PopToken(old(Snapshot()))
    {
      if pendingMover.Some? {
        token := TakePair();
        return;
      }
      var idx := Find(inbuf, ';', 0, |inbuf|);
      if idx != -1 {
        token := Some(inbuf[..idx + 1]);
        inbuf := inbuf[idx + 1..];
        return;
      }
      var head := Mnemonic(inbuf);
      if IsMover(head) && |inbuf| > 2 {
        pendingMover, pendingToken, inbuf := Some(head), head, inbuf[2..];
        token := TakePair();
      } else {
        token := None;
      }
    }

    /** One round of the executor thread. */
    method Step()
      modifies this
      ensures Snapshot() == Work(old(Snapshot())) && pendingCtl == old(pendingCtl)
    {
      if halted {
        return;
      }
      var token := TakeToken();
      if token.Some? {
        if Terminated(token.value) {
          commands := commands + [token.value];
        }
        match Execute(dev, token.value) {
          case Crash => halted := true;
          case Effect(after, reply) =>
            dev := after;
            if reply.Some? {
              replies := replies + [reply.value];
            }
        }
      }
    }
  }
}
