/** When a payload is executed to its end. */
module Liveness {
  // Under every schedule, if every instruction is one the executor can take in pieces; under some
  // schedule it never is, as soon as one instruction is not.

  import Protocol
  import opened Text
  import opened Numbers
  import opened Device
  import opened Emulator
  import opened Schedules
  import opened Delivery
  import opened Hpgl
  import opened Completion
  import Acceptance
  import Agreement
  import SplitVerdict
  import Validator

  // ---- the condition ------------------------------------------------------------------

  predicate ShortPairs(pairs: seq<Pair>) { forall k :: 0 <= k < |pairs| ==> |PairText(pairs[k])| < 64 }

  /** Coordinate pairs, each recognised within the executor's window. */
  ghost predicate ArePairs(pairs: seq<Pair>) { PlainPairs(pairs) && ShortPairs(pairs) }

  ghost predicate IsPairList(s: string) {
    exists pairs :: pairs != [] && ArePairs(pairs) && s == PairsText(pairs)
  }

  /** A velocity instruction has no parameter or one number. */
  predicate VelocityReadable(t: string) {
    Mnemonic(t) == "VS" ==> var v := Strip(Suffix(t, 2)); v == "" || Number(v).Some?
  }

  /** A mover is bare or a list of pairs; anything else fits the input buffer with its terminator,
      and a velocity can be read. */
  ghost predicate Executable(t: string) {
    if IsMover(Mnemonic(t)) then |t| == 2 || IsPairList(t[2..])
    else |t| < Protocol.INPUT_BUFFER_BYTES && VelocityReadable(t)
  }

  ghost predicate AllExecutable(tokens: seq<string>) {
    forall i :: 0 <= i < |tokens| ==> Executable(tokens[i])
  }

  // ---- crashes ------------------------------------------------------------------------

  lemma {:induction false} StripLeftTidy(s: string)
    ensures var r := StripLeft(s); (r != "" ==> !IsBlank(r[0])) && |r| <= |s|
  {
    if s != "" && IsBlank(s[0]) {
      StripLeftTidy(s[1..]);
    }
  }

  lemma {:induction false} StripRightTidy(s: string)
    requires s != "" ==> !IsBlank(s[0])
    ensures Tidy(StripRight(s))
    decreases |s|
  {
    if s != "" && IsBlank(s[|s| - 1]) {
      StripRightTidy(s[..|s| - 1]);
    }
  }

  lemma StripTwice(s: string)
    ensures Strip(Strip(s)) == Strip(s)
  {
    StripLeftTidy(s);
    StripRightTidy(StripLeft(s));
    StripTidy(Strip(s));
  }

  lemma TrimOne(s: string)
    requires ';' !in s
    ensures TrimTerminator(s + ";") == s
  {
    assert (s + ";")[..|s|] == s;
  }

  /** The executor dies exactly at a velocity it cannot read. */
  lemma CrashExactly(dev: Device, t: string)
    requires ';' !in t
    ensures Execute(dev, t + ";").Crash? <==> !VelocityReadable(t)
  {
    var token := t + ";";
    if |t| >= 2 {
      assert Prefix(token, 2) == Prefix(t, 2);
      assert Suffix(token, 2) == t[2..] + ";" && Suffix(t, 2) == t[2..];
      assert ';' !in t[2..];
      TrimOne(t[2..]);
      assert Params(token) == Strip(t[2..]);
      StripTwice(t[2..]);
    } else {
      assert Mnemonic(t) != "VS";
      assert Mnemonic(token) != "VS" by {
        if |t| == 1 {
          assert Mnemonic(token)[1] == ';';
        }
      }
    }
  }

  lemma MoverNeverCrashes(dev: Device, token: string)
    requires IsMover(Mnemonic(token))
    ensures Execute(dev, token).Effect?
  {
  }

  // ---- one round of an executable run -------------------------------------------------

  /** The executor is alive and what it has left of a mover is a list of pairs. */
  ghost predicate Ready(tokens: seq<string>, i: nat, p: Plotter) {
    && !p.halted
    && (p.mover.Some? ==> i < |tokens| && 2 <= |p.token| <= |tokens[i]| && IsPairList(tokens[i][|p.token|..]))
  }

  lemma SettleAlive(p: Plotter, token: string)
    requires Execute(p.dev, token).Effect? && !p.halted
    ensures var q := Settle(p, token); !q.halted && q.mover == p.mover && q.token == p.token && q.inbuf == p.inbuf
  {
  }

  lemma RestIsPairList(pairs: seq<Pair>)
    requires |pairs| > 1 && ArePairs(pairs)
    ensures IsPairList(PairsText(pairs[1..])) && PairsText(pairs) == PairText(pairs[0]) + "," + PairsText(pairs[1..])
  {
    assert ArePairs(pairs[1..]);
  }

  /** The next pair has arrived with its separator: it is executed. */
  lemma WorkTakesPair(p: Plotter, q: Pair, rest: string)
    requires !p.halted && p.mover.Some? && |p.token| >= 2 && IsMover(Mnemonic(p.token))
    requires PlainPair(q) && |PairText(q)| < PAIR_WINDOW
    requires p.inbuf == PairText(q) + rest && rest != "" && (rest[0] == ',' || rest[0] == ';')
    ensures var w := Work(p);
      && !w.halted && |w.inbuf| < |p.inbuf|
      && (if rest[0] == ';' then w.mover.None? else w.mover == p.mover && w.token == p.token + PairText(q) + [rest[0]])
  {
    hide Execute, MatchPair, Settle;
    PopArrivedPair(p, q, rest);
    var token := p.token + PairText(q) + [rest[0]];
    assert Prefix(token, 2) == Prefix(p.token, 2);
    MoverNeverCrashes(p.dev, token);
    SettleAlive(PopPair(p).1, token);
  }

  lemma RestOfMover(t: string, pairs: seq<Pair>, n: nat)
    requires |pairs| > 1 && ArePairs(pairs) && n <= |t| && t[n..] == PairsText(pairs)
    ensures var m := n + |PairText(pairs[0])| + 1; m <= |t| && IsPairList(t[m..])
  {
    RestIsPairList(pairs);
    var m := n + |PairText(pairs[0])| + 1;
    assert t[m..] == t[n..][|PairText(pairs[0])| + 1..] == PairsText(pairs[1..]);
  }

  /** What the buffer shows of the next pair. */
  lemma PairAhead(pairs: seq<Pair>, rest: string, inbuf: string, unsent: string)
    requires pairs != [] && inbuf + unsent == PairsText(pairs) + ";" + rest
    ensures var n := |PairText(pairs[0])|;
      if |inbuf| > n then inbuf == PairText(pairs[0]) + inbuf[n..] && inbuf[n] == if |pairs| == 1 then ';' else ','
      else inbuf <= PairText(pairs[0]) && unsent != ""
  {
    NextPair(pairs, rest);
    CutText(PairText(pairs[0]), TailAfter(pairs, rest), inbuf, unsent);
  }

  /** One round inside a mover, its remaining pairs given. */
  lemma WorkOnPairs(t: string, rest: string, unsent: string, p: Plotter, pairs: seq<Pair>)
    requires p.mover.Some? && !p.halted && 2 <= |p.token| <= |t| && IsMover(Mnemonic(p.token))
    requires pairs != [] && ArePairs(pairs) && t[|p.token|..] == PairsText(pairs)
    requires p.inbuf + unsent == PairsText(pairs) + ";" + rest
    ensures var w := Work(p);
      && !w.halted && (w.mover.Some? ==> 2 <= |w.token| <= |t| && IsPairList(t[|w.token|..]))
      && (w == p ==> unsent != "" && |p.inbuf| < PAIR_WINDOW)
      && (w == p || |w.inbuf| < |p.inbuf|)
  {
    hide Work, PairsText, PairText;
    assert PlainPair(pairs[0]);
    var n := |PairText(pairs[0])|;
    PairAhead(pairs, rest, p.inbuf, unsent);
    if |p.inbuf| > n {
      WorkTakesPair(p, pairs[0], p.inbuf[n..]);
      if |pairs| > 1 {
        RestOfMover(t, pairs, |p.token|);
      }
    } else {
      WorkMissesPair(p, pairs[0]);
      assert IsPairList(t[|p.token|..]);
    }
  }

  lemma WorkInMover(tokens: seq<string>, unsent: string, p: Plotter, i: nat)
    requires i < |tokens| && p.mover.Some? && Remaining(tokens, i, p, unsent) && Ready(tokens, i, p)
    ensures var w := Work(p);
      && !w.halted && (w.mover.Some? ==> Ready(tokens, i, w))
      && (w == p ==> unsent != "" && |p.inbuf| < PAIR_WINDOW)
      && (w == p || |w.inbuf| < |p.inbuf|)
  {
    hide Work, PairsText;
    var t := tokens[i];
    var pairs :| pairs != [] && ArePairs(pairs) && t[|p.token|..] == PairsText(pairs);
    MoverTextNotOutput(t, t[2..|p.token|]);
    WorkOnPairs(t, Terminate(tokens[i + 1..]), unsent, p, pairs);
  }

  /** A whole instruction in the buffer is executed. */
  lemma WorkWholeReady(tokens: seq<string>, unsent: string, p: Plotter, i: nat)
    requires AllDeliverable(tokens) && i < |tokens| && Executable(tokens[i])
    requires p.mover.None? && !p.halted && Remaining(tokens, i, p, unsent) && ';' in p.inbuf
    ensures var w := Work(p); !w.halted && w.mover.None? && |w.inbuf| < |p.inbuf|
  {
    hide Execute, Settle, VelocityReadable, IsPairList;
    PopArrived(tokens, i, unsent, p);
    assert Deliverable(tokens[i]);
    ExecutableLives(p.dev, tokens[i]);
    SettleAlive(PopToken(p).1, tokens[i] + ";");
  }

  lemma ExecutableLives(dev: Device, t: string)
    requires Executable(t) && ';' !in t
    ensures Execute(dev, t + ";").Effect?
  {
    CrashExactly(dev, t);
  }

  /** A partly arrived mover is entered. */
  lemma WorkEntersReady(tokens: seq<string>, unsent: string, p: Plotter, i: nat)
    requires AllDeliverable(tokens) && i < |tokens| && Executable(tokens[i])
    requires p.mover.None? && !p.halted && Remaining(tokens, i, p, unsent)
    requires ';' !in p.inbuf && |p.inbuf| > 2 && IsMover(Mnemonic(p.inbuf))
    ensures var w := Work(p); !w.halted && (w.mover.Some? ==> Ready(tokens, i, w)) && |w.inbuf| < |p.inbuf|
  {
    hide Work, Executable;
    EnterRemaining(tokens, i, unsent, p);
    EnteredIsReady(tokens, unsent, p, i);
    WorkEnters(p);
    WorkInMover(tokens, unsent, Entered(p), i);
  }

  lemma EnteredIsReady(tokens: seq<string>, unsent: string, p: Plotter, i: nat)
    requires i < |tokens| && Executable(tokens[i]) && IsMover(Mnemonic(tokens[i]))
    requires p.mover.None? && !p.halted && Remaining(tokens, i, p, unsent) && ';' !in p.inbuf && |p.inbuf| > 2
    ensures Ready(tokens, i, Entered(p))
  {
    TerminateNext(tokens, i);
    assert p.inbuf[..|p.inbuf|] == p.inbuf;
    CutBefore(tokens[i], Terminate(tokens[i + 1..]), p.inbuf, unsent, |p.inbuf|);
  }

  /** What has arrived of an instruction that is not ready to be popped leaves room for the rest. */
  lemma WaitsWithRoom(tokens: seq<string>, unsent: string, p: Plotter, i: nat)
    requires i < |tokens| && Executable(tokens[i]) && p.mover.None? && Remaining(tokens, i, p, unsent)
    requires ';' !in p.inbuf && !(|p.inbuf| > 2 && IsMover(Mnemonic(p.inbuf)))
    ensures unsent != "" && |p.inbuf| < Protocol.INPUT_BUFFER_BYTES
  {
    var t := tokens[i];
    TerminateNext(tokens, i);
    assert p.inbuf[..|p.inbuf|] == p.inbuf;
    CutBefore(t, Terminate(tokens[i + 1..]), p.inbuf, unsent, |p.inbuf|);
    assert |p.inbuf + unsent| > |t|;
    if |p.inbuf| > 2 {
      MnemonicSeen(t, p.inbuf);
    }
  }

  /** One round of an executable run: it stays alive, and rests only when everything is done. */
  lemma WorkReady(tokens: seq<string>, before: seq<string>, unsent: string, p: Plotter, i: nat) returns (j: nat)
    requires AllDeliverable(tokens) && AllExecutable(tokens)
    requires Follows(tokens, before, unsent, p, i) && Ready(tokens, i, p)
    ensures Follows(tokens, before, unsent, Work(p), j) && Ready(tokens, j, Work(p))
    ensures AtRest(p, unsent) ==> i == |tokens| && p.inbuf == "" && unsent == ""
  {
    hide Executable, Execute, Work, Logged, IsPairList;
    var r := WorkFollows(tokens, before, unsent, p, i);
    j := if r.Next? then i + 1 else i;
    if p.mover.Some? {
      WorkInMover(tokens, unsent, p, i);
    } else if i == |tokens| {
      assert p.inbuf + unsent == "";
      WorkWaits(p);
    } else if ';' in p.inbuf {
      WorkWholeReady(tokens, unsent, p, i);
    } else if |p.inbuf| > 2 && IsMover(Mnemonic(p.inbuf)) {
      WorkEntersReady(tokens, unsent, p, i);
    } else {
      WorkWaits(p);
      WaitsWithRoom(tokens, unsent, p, i);
    }
  }

  // ---- schedules ----------------------------------------------------------------------

  /** An executable run stays one under every schedule. */
  lemma {:induction false} PlayReady(
    tokens: seq<string>, before: seq<string>, unsent: string, p: Plotter, i: nat, turns: seq<Turn>) returns (j: nat)
    requires AllDeliverable(tokens) && AllExecutable(tokens)
    requires Follows(tokens, before, unsent, p, i) && Ready(tokens, i, p)
    ensures var (q, left) := Play(p, unsent, turns);
      && Follows(tokens, before, left, q, j) && Ready(tokens, j, q)
      && (AtRest(q, left) ==> j == |tokens| && q.inbuf == "" && left == "")
    decreases |turns|
  {
    hide Follows, Work, Accept, IsPairList, Executable;
    if turns == [] {
      var h := WorkReady(tokens, before, unsent, p, i);
      j := i;
    } else {
      match turns[0] {
        case Arrive(n) =>
          var k := Arrival(p, unsent, n);
          ArriveFollows(tokens, before, unsent, p, i, n);
          j := PlayReady(tokens, before, unsent[k..], Accept(p, unsent[..k]), i, turns[1..]);
        case Execute1 =>
          var h := WorkReady(tokens, before, unsent, p, i);
          j := PlayReady(tokens, before, unsent, Work(p), h, turns[1..]);
      }
    }
  }

  // ---- a mover that is no list of pairs -----------------------------------------------

  lemma MatchedPair(s: string) returns (q: Pair)
    requires MatchPair(s).Some?
    ensures PlainPair(q) && s[..MatchPair(s).value - 1] == PairText(q)
  {
    var i := ScanNumber(s);
    var t := s[i + 1..];
    var j := ScanNumber(t);
    ScanCut(s);
    ScanCut(t);
    q := Pair(s[..i], t[..j]);
    assert s[..i + 1 + j] == s[..i] + "," + t[..j];
  }

  /** The pending token ends behind a pair. */
  ghost predicate AtPair(p: Plotter, head: string) {
    exists done :: ArePairs(done) && p.token == PartialToken(head, done)
  }

  lemma OnePairMore(head: string, done: seq<Pair>, q: Pair)
    requires ArePairs(done) && PlainPair(q) && |PairText(q)| < PAIR_WINDOW
    ensures ArePairs(done + [q]) && PartialToken(head, done) + PairText(q) == head + PairsText(done + [q])
  {
    hide PairText, PlainPair;
    var all := done + [q];
    forall k | 0 <= k < |all| ensures PlainPair(all[k]) && |PairText(all[k])| < PAIR_WINDOW {
      if k < |done| {
        assert all[k] == done[k];
      }
    }
    if done != [] {
      PairsTextSnoc(done, q);
    } else {
      assert all == [q];
    }
  }

  /** What a pop hands over inside a mover: the bare end, or one pair with its separator. */
  lemma PoppedPair(p: Plotter) returns (q: Pair)
    requires p.mover.Some? && PopPair(p).0.Some?
    ensures var token := PopPair(p).0.value;
      || (token == p.token + ";" && PopPair(p).1.mover.None?)
      || (PlainPair(q) && |PairText(q)| < PAIR_WINDOW &&
          if PopPair(p).1.mover.None? then token == p.token + (PairText(q) + ";")
          else token == p.token + (PairText(q) + ",") && PopPair(p).1.token == token)
  {
    hide MatchPair, PlainPair;
    var seen := Prefix(p.inbuf, PAIR_WINDOW);
    if seen[0] == ';' {
      q := Pair("", "");
    } else {
      var n := MatchPair(seen).value;
      q := MatchedPair(seen);
      assert p.inbuf[..n] == PairText(q) + [seen[n - 1]];
    }
  }

  lemma EndsInPair(t: string, head: string, done: seq<Pair>, q: Pair, entry: string)
    requires |head| == 2 && |t| > 2 && |entry| == |t| + 1 && entry[2..] == t[2..] + ";"
    requires ArePairs(done) && PlainPair(q) && |PairText(q)| < PAIR_WINDOW
    requires entry == PartialToken(head, done) + (PairText(q) + ";")
    ensures IsPairList(t[2..])
  {
    hide PairText, PairsText;
    OnePairMore(head, done, q);
    var list := PairsText(done + [q]);
    assert entry == (head + list) + ";";
    assert entry[2..] == list + ";";
    assert t[2..] == entry[2..][..|t| - 2] == list;
  }

  /** The entry that ends a mover popped pair by pair shows it to be a list of pairs. */
  lemma PoppedIsPairList(t: string, p: Plotter, done: seq<Pair>, entry: string)
    requires IsMover(Mnemonic(t)) && |t| > 2 && t[|t| - 1] != ',' && LoggedAs(t, entry)
    requires ArePairs(done) && p.token == PartialToken(Mnemonic(t), done) && PopPair(p).0 == Some(entry)
    requires p.mover.Some? && PopPair(p).1.mover.None?
    ensures IsPairList(t[2..])
  {
    hide PopPair, IsPairList, ArePairs, PlainPair;
    var head := Mnemonic(t);
    assert entry[2..] == t[2..] + ";" && |entry| == |t| + 1;
    var q := PoppedPair(p);
    if entry == p.token + ";" {
      LooseComma(t, head, done, entry);
    } else {
      EndsInPair(t, head, done, q, entry);
    }
  }

  lemma LooseComma(t: string, head: string, done: seq<Pair>, entry: string)
    requires |head| == 2 && |t| > 2 && |entry| == |t| + 1 && entry[2..] == t[2..] + ";"
    requires entry == PartialToken(head, done) + ";"
    ensures t[|t| - 1] == ','
  {
    assert entry[..|t|] == PartialToken(head, done);
    assert t[|t| - 1] == t[2..][|t| - 3] == entry[2..][|t| - 3] == entry[|t| - 1];
  }

  // ---- blocked runs -------------------------------------------------------------------

  /** Pair by pair the executor would take a comma at the end for the end of a pair; no accepted
      mover has one. */
  predicate NoLooseComma(t: string) { IsMover(Mnemonic(t)) ==> t[|t| - 1] != ',' }

  /** Nothing behind instruction `c` has been executed, and nothing will be. */
  ghost predicate Blocked(tokens: seq<string>, c: nat, p: Plotter, j: nat)
    requires c < |tokens|
  {
    && |p.inbuf| <= Protocol.INPUT_BUFFER_BYTES
    && if IsMover(Mnemonic(tokens[c])) then j == c && p.mover.Some? && AtPair(p, Mnemonic(tokens[c]))
       else if |tokens[c]| >= Protocol.INPUT_BUFFER_BYTES then j <= c
       else j <= c || (j == c + 1 && p.halted)
  }

  lemma NothingPopped(tokens: seq<string>, unsent: string, p: Plotter, c: nat)
    requires AllDeliverable(tokens) && c < |tokens| && p.mover.Some? && Remaining(tokens, c, p, unsent)
    requires PopPair(p).0.None?
    ensures PopPair(p).1 == p
  {
    hide MatchPair;
    if p.inbuf != "" {
      NoLetterAhead(tokens, c, unsent, p);
    }
  }

  lemma PartialPopped(head: string, done: seq<Pair>, p: Plotter)
    requires p.mover.Some? && ArePairs(done) && p.token == PartialToken(head, done)
    requires PopPair(p).0.Some? && !Terminated(PopPair(p).0.value)
    ensures PopPair(p).1.mover.Some? && AtPair(PopPair(p).1, head)
  {
    hide PopPair, PlainPair, PairText, PairsText;
    var q := PoppedPair(p);
    assert Terminated(p.token + ";") && Terminated(p.token + (PairText(q) + ";"));
    OnePairMore(head, done, q);
    var all := done + [q];
    assert PopPair(p).1.token == head + PairsText(all) + ",";
    assert PopPair(p).1.token == PartialToken(head, all);
  }

  lemma WorkPopped(p: Plotter)
    requires p.mover.Some?
    ensures if p.halted || PopPair(p).0.None? then Work(p) == if p.halted then p else PopPair(p).1
            else Work(p) == Settle(PopPair(p).1, PopPair(p).0.value)
    ensures !p.halted ==> Work(p).mover == PopPair(p).1.mover && Work(p).token == PopPair(p).1.token
  {
    hide PopPair, Execute;
  }

  /** A round inside a mover that is no list of pairs. */
  lemma WorkBlockedMover(tokens: seq<string>, before: seq<string>, unsent: string, p: Plotter, c: nat)
    requires AllDeliverable(tokens) && c < |tokens| && Follows(tokens, before, unsent, p, c)
    requires IsMover(Mnemonic(tokens[c])) && !Executable(tokens[c]) && NoLooseComma(tokens[c])
    requires p.mover.Some? && AtPair(p, Mnemonic(tokens[c]))
    ensures Work(p).mover.Some? && AtPair(Work(p), Mnemonic(tokens[c]))
  {
    hide Execute, Logged, Terminate, MatchPair, Settle, PopPair, Work, PlainPair, ArePairs, IsPairList;
    var t := tokens[c];
    var head := Mnemonic(t);
    var done :| ArePairs(done) && p.token == PartialToken(head, done);
    WorkPopped(p);
    if !p.halted {
      var popped := PopInside(tokens, c, unsent, p);
      match popped {
        case Nothing => NothingPopped(tokens, unsent, p, c);
        case Whole(entry) =>
          assert |t| > 2;
          PoppedIsPairList(t, p, done, entry);
          assert false;
        case Partial(token) => PartialPopped(head, done, p);
      }
    }
  }

  lemma TooLongToPop(tokens: seq<string>, unsent: string, p: Plotter, c: nat)
    requires c < |tokens| && Remaining(tokens, c, p, unsent) && !IsMover(Mnemonic(tokens[c])) && ';' !in tokens[c]
    requires |tokens[c]| >= Protocol.INPUT_BUFFER_BYTES >= |p.inbuf|
    ensures p.mover.None? && ';' !in p.inbuf
  {
    TerminateNext(tokens, c);
    var all := tokens[c] + ";" + Terminate(tokens[c + 1..]);
    assert p.inbuf == all[..|p.inbuf|] == tokens[c][..|p.inbuf|];
  }

  lemma TooLongWaits(tokens: seq<string>, unsent: string, p: Plotter, c: nat)
    requires AllDeliverable(tokens) && c < |tokens| && Remaining(tokens, c, p, unsent) && !IsMover(Mnemonic(tokens[c]))
    requires |tokens[c]| >= Protocol.INPUT_BUFFER_BYTES >= |p.inbuf|
    ensures Work(p) == p
  {
    assert Deliverable(tokens[c]);
    TooLongToPop(tokens, unsent, p, c);
    if |p.inbuf| > 2 && IsMover(Mnemonic(p.inbuf)) {
      EnterRemaining(tokens, c, unsent, p);
    } else {
      WorkWaits(p);
    }
  }

  lemma SameLog(tokens: seq<string>, before: seq<string>, unsent: string, p: Plotter, i: nat, j: nat)
    requires Follows(tokens, before, unsent, p, i) && Follows(tokens, before, unsent, p, j)
    ensures i == j
  {
    hide Remaining, LoggedAs;
  }

  /** A blocked run stays blocked. */
  lemma WorkBlocked(tokens: seq<string>, before: seq<string>, unsent: string, p: Plotter, c: nat, j: nat)
    returns (j': nat)
    requires AllDeliverable(tokens) && c < |tokens| && !Executable(tokens[c]) && NoLooseComma(tokens[c])
    requires Follows(tokens, before, unsent, p, j) && Blocked(tokens, c, p, j)
    ensures Follows(tokens, before, unsent, Work(p), j') && Blocked(tokens, c, Work(p), j')
  {
    hide Execute, Work, Follows, IsPairList, AtPair;
    var r := WorkFollows(tokens, before, unsent, p, j);
    j' := if r.Next? then j + 1 else j;
    WorkShrinks(p);
    var t := tokens[c];
    if IsMover(Mnemonic(t)) {
      WorkBlockedMover(tokens, before, unsent, p, c);
    } else if p.halted {
      HaltedStays(p);
      SameLog(tokens, before, unsent, p, j, j');
    } else if |t| >= Protocol.INPUT_BUFFER_BYTES {
      if j == c {
        FollowsRemains(tokens, before, unsent, p, j);
        TooLongWaits(tokens, unsent, p, c);
        SameLog(tokens, before, unsent, p, j, j');
      }
    } else if r.Next? && j == c {
      assert Deliverable(t);
      CrashExactly(p.dev, t);
    }
  }

  lemma HaltedStays(p: Plotter)
    requires p.halted
    ensures Work(p) == p
  {
  }

  lemma FollowsRemains(tokens: seq<string>, before: seq<string>, unsent: string, p: Plotter, j: nat)
    requires Follows(tokens, before, unsent, p, j)
    ensures j <= |tokens| && Remaining(tokens, j, p, unsent)
  {
  }

  lemma {:induction false} PlayBlocked(tokens: seq<string>, before: seq<string>, unsent: string, p: Plotter, c: nat,
      j: nat, turns: seq<Turn>)
    returns (j': nat)
    requires AllDeliverable(tokens) && c < |tokens| && !Executable(tokens[c]) && NoLooseComma(tokens[c])
    requires Follows(tokens, before, unsent, p, j) && Blocked(tokens, c, p, j)
    ensures var (q, left) := Play(p, unsent, turns); Follows(tokens, before, left, q, j') && Blocked(tokens, c, q, j')
    decreases |turns|
  {
    hide Follows, Work, Accept, Executable, AtPair;
    if turns == [] {
      j' := j;
    } else {
      match turns[0] {
        case Arrive(n) =>
          var k := Arrival(p, unsent, n);
          ArriveFollows(tokens, before, unsent, p, j, n);
          ArriveBlocked(tokens, c, p, j, unsent[..k]);
          j' := PlayBlocked(tokens, before, unsent[k..], Accept(p, unsent[..k]), c, j, turns[1..]);
        case Execute1 =>
          var h := WorkBlocked(tokens, before, unsent, p, c, j);
          j' := PlayBlocked(tokens, before, unsent, Work(p), c, h, turns[1..]);
      }
    }
  }

  lemma ArriveBlocked(tokens: seq<string>, c: nat, p: Plotter, j: nat, bytes: string)
    requires c < |tokens| && Blocked(tokens, c, p, j)
    requires bytes == "" || |p.inbuf| + |bytes| <= Protocol.INPUT_BUFFER_BYTES
    ensures Blocked(tokens, c, Accept(p, bytes), j)
  {
    AcceptFits(p, bytes);
  }

  // ---- reaching an instruction --------------------------------------------------------

  /** Between instructions, with nothing buffered. */
  lemma DeliveredIdle(tokens: seq<string>, before: seq<string>, q: Plotter)
    requires Follows(tokens, before, "", q, |tokens|) && Ready(tokens, |tokens|, q)
    ensures Idle(q)
  {
    assert q.inbuf + "" == q.inbuf;
  }

  /** The instructions in front of the first one that cannot be executed can all be delivered and
      executed before a byte of it arrives. */
  lemma Reaches(tokens: seq<string>, c: nat, p: Plotter) returns (turns: seq<Turn>)
    requires AllDeliverable(tokens) && c <= |tokens| && AllExecutable(tokens[..c]) && Idle(p)
    ensures var (q, left) := Play(p, Terminate(tokens), turns);
      Idle(q) && left == Terminate(tokens[c..]) && Follows(tokens, p.commands, left, q, c)
  {
    hide Follows, Executable, Play, AtRest;
    var front, rest := tokens[..c], tokens[c..];
    var quick := ComesToRest(p, Terminate(front));
    StartFollows(front, p);
    var j := PlayReady(front, p.commands, Terminate(front), p, 0, quick);
    var (q, left) := Play(p, Terminate(front), quick);
    DeliveredIdle(front, p.commands, q);
    MoreFollows(front, rest, p.commands, "", q, c);
    assert front + rest == tokens;
    TerminateAppend(front, rest);
    assert "" + Terminate(rest) == Terminate(rest);
    turns := Unhurried(p, Terminate(front), Terminate(rest), quick);
  }

  /** Three bytes of a mover that is no list of pairs, and the executor is caught in it. */
  lemma Enters(tokens: seq<string>, before: seq<string>, q: Plotter, c: nat)
    requires AllDeliverable(tokens) && c < |tokens| && Idle(q)
    requires Follows(tokens, before, Terminate(tokens[c..]), q, c)
    requires IsMover(Mnemonic(tokens[c])) && !Executable(tokens[c]) && NoLooseComma(tokens[c])
    ensures var (w, left) := Play(q, Terminate(tokens[c..]), [Arrive(3), Execute1]);
      Follows(tokens, before, left, w, c) && Blocked(tokens, c, w, c)
  {
    hide Execute, Work, Logged;
    var unsent := Terminate(tokens[c..]);
    var t := tokens[c];
    assert Deliverable(t);
    TerminateNext(tokens, c);
    assert unsent[..3] == t[..3] && ';' !in t[..3];
    ArriveFollows(tokens, before, unsent, q, c, 3);
    var a := Accept(q, unsent[..3]);
    assert a.inbuf == t[..3];
    MnemonicSeen(t, a.inbuf);
    TwoTurns(q, unsent);
    EnteredBlocked(tokens, before, unsent[3..], a, c);
  }

  lemma EnteredBlocked(tokens: seq<string>, before: seq<string>, unsent: string, a: Plotter, c: nat)
    requires AllDeliverable(tokens) && c < |tokens| && Follows(tokens, before, unsent, a, c)
    requires a.mover.None? && !a.halted && ';' !in a.inbuf && |a.inbuf| == 3 && IsMover(Mnemonic(a.inbuf))
    requires IsMover(Mnemonic(tokens[c])) && !Executable(tokens[c]) && NoLooseComma(tokens[c])
    ensures Follows(tokens, before, unsent, Work(a), c) && Blocked(tokens, c, Work(a), c)
  {
    hide Execute, Work, Logged, IsPairList;
    EnterRemaining(tokens, c, unsent, a);
    WorkEnters(a);
    var e := Entered(a);
    assert ArePairs([]) && e.token == PartialToken(e.mover.value, []);
    assert Remaining(tokens, c, e, unsent);
    assert Follows(tokens, before, unsent, e, c);
    WorkBlockedMover(tokens, before, unsent, e, c);
    WorkShrinks(e);
    var r := WorkFollows(tokens, before, unsent, a, c);
  }

  /** A schedule that blocks at the first instruction that cannot be executed. */
  lemma BlockingSchedule(tokens: seq<string>, c: nat, p: Plotter) returns (turns: seq<Turn>, j: nat)
    requires AllDeliverable(tokens) && c < |tokens| && AllExecutable(tokens[..c]) && Idle(p)
    requires !Executable(tokens[c]) && NoLooseComma(tokens[c])
    ensures var (q, left) := Play(p, Terminate(tokens), turns);
      Follows(tokens, p.commands, left, q, j) && Blocked(tokens, c, q, j)
  {
    hide Follows, Executable, AllExecutable;
    if IsMover(Mnemonic(tokens[c])) {
      var first := Reaches(tokens, c, p);
      var (q, left) := Play(p, Terminate(tokens), first);
      Enters(tokens, p.commands, q, c);
      PlayAppend(p, Terminate(tokens), first, [Arrive(3), Execute1]);
      turns, j := first + [Arrive(3), Execute1], c;
    } else {
      StartFollows(tokens, p);
      turns, j := [], 0;
    }
  }

  /** The first instruction that cannot be executed. */
  lemma FirstOffender(tokens: seq<string>) returns (c: nat)
    requires !AllExecutable(tokens)
    ensures c < |tokens| && !Executable(tokens[c]) && AllExecutable(tokens[..c])
  {
    hide Executable;
    assert tokens[..|tokens|] == tokens;
    c := 0;
    while c < |tokens| && Executable(tokens[c])
      invariant c <= |tokens| && AllExecutable(tokens[..c])
    {
      c := c + 1;
    }
  }

  // ---- completion ---------------------------------------------------------------------

  /** If this run, with the sentinel and `k` polls sent after `before`, has come to rest, then every
      payload instruction has been executed and the sentinel and all polls have been answered. */
  ghost predicate Answered(text: string, p: Plotter, k: nat, before: seq<Turn>, wait: seq<Turn>) {
    var (p0, unsent) := Play(p, text, before);
    var (q, left) := Play(p0, unsent + ("OA;" + Polls(k)), wait);
    AtRest(q, left) ==>
      && left == "" && AllExecuted(Tokens(text), p, q)
      && |q.replies| == |p.replies| + k + 1 && IsPosition(q.replies[|p.replies|])
  }

  ghost predicate AlwaysAnswered(text: string, p: Plotter, k: nat) {
    forall before, wait :: Answered(text, p, k, before, wait)
  }

  lemma QueriesExecutable(k: nat)
    ensures AllExecutable(Queries(k))
  {
    QueriesShape(k);
    QueryDeliverable("OA");
    QueryDeliverable("OS");
    assert Mnemonic("OA") == "OA" && Mnemonic("OS") == "OS";
  }

  lemma ExecutableAppend(a: seq<string>, b: seq<string>)
    ensures AllExecutable(a + b) <==> AllExecutable(a) && AllExecutable(b)
  {
    hide Executable;
    forall i | 0 <= i < |a| && AllExecutable(a + b) ensures Executable(a[i]) {
      assert (a + b)[i] == a[i];
    }
    forall i | 0 <= i < |b| && AllExecutable(a + b) ensures Executable(b[i]) {
      assert (a + b)[|a| + i] == b[i];
    }
  }

  lemma StartReady(tokens: seq<string>, p: Plotter)
    requires Idle(p)
    ensures Ready(tokens, 0, p)
  {
  }

  /** Executable instructions are executed and the sentinel is answered, under every schedule. */
  lemma ExecutableIsAnswered(text: string, clip: Option<Clip>, p: Plotter, k: nat, before: seq<Turn>, wait: seq<Turn>)
    requires Validator.Ok(text, clip) && Tail(text) == "" && Idle(p) && AllExecutable(Tokens(text))
    ensures Answered(text, p, k, before, wait)
  {
    hide Follows, Executable, Play, AtRest, Ready, Validator.Ok;
    var tokens := Tokens(text);
    var all := tokens + Queries(k);
    var (p0, unsent) := Play(p, text, before);
    var (q, left) := Play(p0, unsent + ("OA;" + Polls(k)), wait);
    var j := WaitFollows(text, clip, p, before, k, wait);
    PayloadAsking(text, clip, k);
    TerminatedText(text);
    StartFollows(tokens, p);
    StartReady(tokens, p);
    var i := PlayReady(tokens, p.commands, text, p, 0, before);
    QueriesText(k);
    MoreFollows(tokens, Queries(k), p.commands, unsent, p0, i);
    MoreReady(tokens, Queries(k), p0, i);
    QueriesExecutable(k);
    ExecutableAppend(tokens, Queries(k));
    var h := PlayReady(all, p.commands, unsent + ("OA;" + Polls(k)), p0, i, wait);
    SameLog(all, p.commands, left, q, j, h);
    if AtRest(q, left) {
      QueriesShape(k);
      ExecutedBefore(tokens, Queries(k), p, left, q, j);
      PositionReadsBack(q.dev.x, q.dev.y, q.dev.penDown);
    }
  }

  lemma MoreReady(tokens: seq<string>, more: seq<string>, p: Plotter, i: nat)
    requires Ready(tokens, i, p)
    ensures Ready(tokens + more, i, p)
  {
  }

  /** Otherwise a schedule comes to rest before the sentinel is reached. */
  lemma OffenderIsNotAnswered(text: string, clip: Option<Clip>, p: Plotter, k: nat)
    returns (before: seq<Turn>, wait: seq<Turn>)
    requires Validator.Ok(text, clip) && Tail(text) == "" && Idle(p) && !AllExecutable(Tokens(text))
    ensures !Answered(text, p, k, before, wait)
  {
    hide Follows, Executable, Play, AtRest, Validator.Ok;
    var tokens := Tokens(text);
    var all := tokens + Queries(k);
    PayloadAsking(text, clip, k);
    TerminatedText(text);
    var c := FirstOffender(tokens);
    if IsMover(Mnemonic(tokens[c])) {
      Acceptance.AcceptedEndsInNumber(text, clip, c);
    }
    var j;
    before, j := BlockingSchedule(tokens, c, p);
    var (p0, unsent) := Play(p, text, before);
    QueriesText(k);
    MoreFollows(tokens, Queries(k), p.commands, unsent, p0, j);
    MoreBlocked(tokens, Queries(k), c, p0, j);
    wait := ComesToRest(p0, unsent + ("OA;" + Polls(k)));
    var h := PlayBlocked(all, p.commands, unsent + ("OA;" + Polls(k)), p0, c, j, wait);
    var (q, left) := Play(p0, unsent + ("OA;" + Polls(k)), wait);
    BlockedLog(all, |tokens|, p.commands, left, q, c, h);
  }

  lemma MoreBlocked(tokens: seq<string>, more: seq<string>, c: nat, p: Plotter, j: nat)
    requires c < |tokens| && Blocked(tokens, c, p, j)
    ensures Blocked(tokens + more, c, p, j) && (tokens + more)[c] == tokens[c]
  {
  }

  lemma BlockedLog(all: seq<string>, n: nat, before: seq<string>, left: string, q: Plotter, c: nat, j: nat)
    requires c < n <= |all| && Follows(all, before, left, q, j) && Blocked(all, c, q, j)
    ensures |q.commands| <= |before| + n
  {
    hide Remaining, LoggedAs, AtPair;
  }

  /** The exact condition of completion.  Under every schedule of arrivals and rounds, with the
      sentinel and any number of polls sent at any time, an accepted payload that comes to rest has
      been executed to its end and the sentinel answered, if and only if every instruction is one
      the executor can take in pieces. */
  lemma CompletesExactly(text: string, clip: Option<Clip>, p: Plotter, k: nat)
    requires Validator.Ok(text, clip) && Tail(text) == "" && Idle(p)
    ensures AlwaysAnswered(text, p, k) <==> AllExecutable(Tokens(text))
  {
    hide Answered, AllExecutable, Validator.Ok;
    if AllExecutable(Tokens(text)) {
      forall before, wait ensures Answered(text, p, k, before, wait) {
        ExecutableIsAnswered(text, clip, p, k, before, wait);
      }
    } else {
      var before, wait := OffenderIsNotAnswered(text, clip, p, k);
    }
  }

  /** An accepted payload with a velocity the executor cannot read never completes, under no
      schedule at all: nothing behind it is executed and the sentinel is not answered. */
  lemma UnreadableVelocityNeverCompletes(text: string, clip: Option<Clip>, p: Plotter, k: nat, before: seq<Turn>,
      wait: seq<Turn>, c: nat)
    requires Validator.Ok(text, clip) && Tail(text) == "" && Idle(p)
    requires c < |Tokens(text)| && !VelocityReadable(Tokens(text)[c])
    ensures var (p0, unsent) := Play(p, text, before);
      var q := Play(p0, unsent + ("OA;" + Polls(k)), wait).0;
      |q.commands| <= |p.commands| + c + 1 && q.replies == p.replies
  {
    hide Follows, Play, Validator.Ok, Execute, Polls;
    var tokens := Tokens(text);
    var all := tokens + Queries(k);
    PayloadAsking(text, clip, k);
    TerminatedText(text);
    StartFollows(tokens, p);
    var (p0, unsent) := Play(p, text, before);
    var i := PlayBlocked(tokens, p.commands, text, p, c, 0, before);
    QueriesText(k);
    MoreFollows(tokens, Queries(k), p.commands, unsent, p0, i);
    MoreBlocked(tokens, Queries(k), c, p0, i);
    var h := PlayBlocked(all, p.commands, unsent + ("OA;" + Polls(k)), p0, c, i, wait);
    var (q, left) := Play(p0, unsent + ("OA;" + Polls(k)), wait);
    var j := WaitFollows(text, clip, p, before, k, wait);
    SameLog(all, p.commands, left, q, h, j);
    BlockedCount(all, p.commands, left, q, c, h);
  }

  lemma BlockedCount(all: seq<string>, before: seq<string>, left: string, q: Plotter, c: nat, j: nat)
    requires c < |all| && Follows(all, before, left, q, j) && Blocked(all, c, q, j)
    ensures j <= c + 1 && |q.commands| == |before| + j
  {
    hide Remaining, LoggedAs, AtPair;
  }

  // ---- a velocity with its pen --------------------------------------------------------

  /** `VS` with a velocity and a pen. */
  function PenVelocity(v: Pair): string { "VS" + PairText(v) }

  lemma PlainQuiet(s: string)
    requires Plain(s)
    ensures forall i :: 0 <= i < |s| ==> !SplitVerdict.IsControl(s[i])
  {
    PlainCharacters(s);
  }

  lemma PenVelocityControls(v: Pair)
    requires PlainPair(v)
    ensures Validator.ControlErrors(PenVelocity(v) + ";", 0) == [] && ';' !in PenVelocity(v)
  {
    PlainQuiet(v.x);
    PlainQuiet(v.y);
    PlainCharacters(v.x);
    PlainCharacters(v.y);
    SplitVerdict.ControlsMean(PenVelocity(v) + ";", 0);
  }

  lemma VelocityAllowed()
    ensures !Validator.IsQuery("VS") && Validator.IsAllowed("VS") && !Validator.IsInit("VS")
    ensures !Validator.IsIneffective("VS")
  {
  }

  lemma PenVelocityKind(v: Pair)
    requires PlainPair(v)
    ensures Validator.KindOf(PenVelocity(v)) == Validator.Body("VS", PairText(v))
  {
    hide Validator.IsAllowed, Validator.IsQuery, Validator.IsInit, PlainPair;
    PairsTextEnds([v]);
    PartsOf("VS", PairText(v));
    assert Upper("VS") == "VS";
    StripTidy(PenVelocity(v));
    VelocityAllowed();
  }

  lemma OneValue(v: Pair)
    requires PlainPair(v) && PlainPairs([v])
    ensures Values([v]) == [Value(v.x), Value(v.y)]
  {
    hide Value;
    assert [v][1..] == [] && [v][0] == v;
  }

  lemma PenVelocityNumbers(v: Pair)
    requires PlainPair(v)
    ensures ParseNums(PairText(v)) == Some([Value(v.x), Value(v.y)])
  {
    var vs := [v];
    assert PlainPairs(vs) && PlainPair(vs[0]) && vs[1..] == [];
    ParsePairs(vs);
    OneValue(v);
  }

  lemma Reasonable(v: real, pen: real)
    ensures 0.0 <= v <= Protocol.VELOCITY_MAX && 0.0 <= pen <= Validator.PENS ==> !Validator.AnyUnreasonable([v, pen])
  {
  }

  lemma BothClean(a: Validator.Report, b: Validator.Report)
    ensures Validator.Then(a, b).errors == [] <==> a.errors == [] && b.errors == []
  {
  }

  lemma PenVelocityOutcome(s: Validator.Tracker, args: string, v: real, pen: real)
    requires args != "" && ParseNums(args) == Some([v, pen])
    ensures Validator.CheckVelocity(s, args).report.errors == [] <==>
      0.0 <= v <= Protocol.VELOCITY_MAX && 0.0 <= pen <= Validator.PENS
  {
    hide ParseNums, Validator.OffStep, Validator.AnyUnreasonable, Validator.Then;
    Reasonable(v, pen);
    if !Validator.AnyUnreasonable([v, pen]) {
      var speed :=
        if !(0.0 <= v <= Protocol.VELOCITY_MAX) then Validator.Fail(Validator.VelocityRange)
        else if Validator.OffStep(v) && v != 0.0 then Validator.Note(Validator.VelocityOffStep)
        else Validator.CLEAN;
      var select := if 0.0 <= pen <= Validator.PENS then Validator.CLEAN else Validator.Fail(Validator.VelocityPen);
      assert Validator.CheckVelocity(s, args).report == Validator.Then(speed, select);
      BothClean(speed, select);
    }
  }

  lemma PenVelocityChecked(v: Pair, clip: Option<Clip>)
    requires PlainPair(v)
    ensures Validator.CheckKind(clip, Validator.START, Validator.KindOf(PenVelocity(v))).report.errors == [] <==>
      0.0 <= Value(v.x) <= Protocol.VELOCITY_MAX && 0.0 <= Value(v.y) <= Validator.PENS
  {
    hide ParseNums, Validator.KindOf, Validator.CheckVelocity, Validator.IsAllowed, Value, Plain;
    PenVelocityKind(v);
    PenVelocityNumbers(v);
    VelocityAllowed();
    PenVelocityOutcome(Validator.START.(seenBody := true), PairText(v), Value(v.x), Value(v.y));
  }

  /** It is accepted within the velocity and pen ranges, and the executor cannot read it. */
  lemma PenVelocityIsUnreadable(v: Pair, clip: Option<Clip>)
    requires PlainPair(v) && |PenVelocity(v)| < Validator.MAX_JOB_BYTES
    ensures Validator.Ok(PenVelocity(v) + ";", clip) <==>
      0.0 <= Value(v.x) <= Protocol.VELOCITY_MAX && 0.0 <= Value(v.y) <= Validator.PENS
    ensures !VelocityReadable(PenVelocity(v))
  {
    PenVelocityControls(v);
    PenVelocityChecked(v, clip);
    Acceptance.OneInstruction(PenVelocity(v), clip);
    PenVelocityText(v);
  }

  lemma PenVelocityText(v: Pair)
    requires PlainPair(v)
    ensures !VelocityReadable(PenVelocity(v))
  {
    var t := PenVelocity(v);
    PairsTextEnds([v]);
    assert Prefix(t, 2) == "VS" && Suffix(t, 2) == PairText(v) && Upper("VS") == "VS";
    StripTidy(PairText(v));
    PairIsNoNumber(v);
  }

  /** Two numbers with a comma are no number. */
  lemma PairIsNoNumber(v: Pair)
    requires PlainPair(v)
    ensures Number(PairText(v)).None?
  {
    var s := PairText(v);
    assert s[|v.x|] == ',';
    if Number(s).Some? {
      NumberHasNoComma(s);
    }
  }

  lemma NumberHasNoComma(s: string)
    requires Number(s).Some?
    ensures ',' !in s
  {
    var t := if s[0] == '+' || s[0] == '-' then s[1..] else s;
    var i := DigitsEnd(t, 0);
    DigitsEndMeaning(t, 0);
    if i < |t| {
      DigitsEndMeaning(t, i + 1);
    }
  }

  lemma TenAndOne()
    ensures var v := Pair("10", "1");
      && PlainPair(v) && Value(v.x) == 10.0 && Value(v.y) == 1.0 && PenVelocity(v) == "VS10,1"
  {
    assert IntText(1) == "1" && IntText(10) == "10";
    IntRoundTrip(1);
    IntRoundTrip(10);
  }

  /** The form the pipeline writes behind each pen selection. */
  lemma PipelineVelocityStopsThePlotter(p: Plotter, k: nat, before: seq<Turn>, wait: seq<Turn>)
    requires Idle(p)
    ensures Validator.Ok("VS10,1;", None)
    ensures var (p0, unsent) := Play(p, "VS10,1;", before);
      Play(p0, unsent + ("OA;" + Polls(k)), wait).0.replies == p.replies
  {
    hide Play, Validator.Ok, Tokens, Tail, PlainPair, Value, VelocityReadable, PenVelocity;
    TenAndOne();
    PenVelocityIsUnreadable(Pair("10", "1"), None);
    OneToken("VS10,1");
    assert "VS10,1" + ";" == "VS10,1;";
    UnreadableVelocityNeverCompletes("VS10,1;", None, p, k, before, wait, 0);
  }

  // ---- accepted payloads as programs --------------------------------------------------

  /** A mover is written in capitals and, if it has parameters, absolute. */
  predicate Upright(t: string) {
    IsMover(Mnemonic(t)) ==> t[..2] == Mnemonic(t) && (|t| > 2 ==> Mnemonic(t) != "PR")
  }

  lemma InstrOf(t: string) returns (i: Instr)
    requires ';' !in t && Executable(t) && Upright(t)
    ensures WellFormed(i) && TextOf(i) == t
  {
    hide Execute, Strip, Number;
    if IsMover(Mnemonic(t)) && |t| > 2 {
      var pairs :| pairs != [] && ArePairs(pairs) && t[2..] == PairsText(pairs);
      i := Mover(t[..2], pairs);
    } else {
      i := Bare(t);
      CrashExactly(PowerUp(A4_CLIP), t);
    }
  }

  lemma {:induction false} InstrsOf(tokens: seq<string>) returns (instrs: seq<Instr>)
    requires AllExecutable(tokens) && forall i :: 0 <= i < |tokens| ==> ';' !in tokens[i] && Upright(tokens[i])
    ensures Program(instrs) && Agreement.Texts(instrs) == tokens
  {
    hide Executable, WellFormed, Upright;
    if tokens == [] {
      instrs := [];
    } else {
      var first := InstrOf(tokens[0]);
      var rest := InstrsOf(tokens[1..]);
      instrs := [first] + rest;
      assert instrs[1..] == rest && [tokens[0]] + tokens[1..] == tokens;
    }
  }

  /** An accepted payload that completes is a program, so that everything proved about programs of
      absolute movers holds of it, relative movers and lower-case movers apart. */
  lemma AcceptedIsProgram(text: string, clip: Option<Clip>) returns (instrs: seq<Instr>)
    requires Validator.Ok(text, clip) && Tail(text) == "" && AllExecutable(Tokens(text))
    requires forall i :: 0 <= i < |Tokens(text)| ==> Upright(Tokens(text)[i])
    ensures Program(instrs) && Script(instrs) == text && Agreement.Texts(instrs) == Tokens(text)
  {
    hide Executable, Upright, Validator.Ok;
    Acceptance.AcceptedIsDeliverable(text, clip);
    instrs := InstrsOf(Tokens(text));
    Agreement.ScriptIsTerminated(instrs);
    TerminatedText(text);
  }
}
