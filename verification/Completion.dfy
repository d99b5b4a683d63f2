/** Proof of completion. */
module Completion {
  // A position query is queued behind the payload.  When its answer has been read, every
  // instruction of the payload has been executed.

  import Protocol
  import opened Text
  import opened Numbers
  import opened Device
  import opened Emulator
  import Validator
  import Soundness
  import Agreement
  import opened Delivery
  import Acceptance
  import opened Hpgl
  import Link
  import S = Streamer

  // ---- reading replies ----------------------------------------------------------------

  datatype Position = Position(x: real, y: real, down: bool)

  /** A number in front of a comma, and what follows. */
  function Field(s: string): (r: Option<(string, string)>)
    ensures r.Some? ==> Plain(r.value.0)
  {
    var a := StripLeft(s);
    var i := ScanNumber(a);
    if i == -1 || i == |a| || a[i] != ',' then None
    else
      ScanCut(a);
      Some((a[..i], a[i + 1..]))
  }

  /** The pen field at the end of a position: digits, and only blanks around them. */
  function LastField(s: string): Option<string> {
    var c := StripLeft(s);
    var k := DigitsEnd(c, 0);
    if k == 0 || StripLeft(c[k..]) != "" then None else Some(c[..k])
  }

  /** A reply of the form X,Y,P with blanks allowed in front of each part and at the end. */
  function ParsePosition(line: string): Option<Position> {
    match Field(line)
    case None => None
    case Some((x, afterX)) =>
      match Field(afterX)
      case None => None
      case Some((y, afterY)) =>
        match LastField(afterY)
        case None => None
        case Some(pen) => Some(Position(Value(x), Value(y), pen == "1"))
  }

  predicate IsPosition(line: string) { ParsePosition(line).Some? }

  /** A status byte: one whole number from 0 to 255. */
  function ParseStatus(line: string): Option<nat> {
    var t := Strip(line);
    var digits := if t != "" && t[0] == '-' then t[1..] else t;
    if digits == "" || DigitsEnd(digits, 0) != |digits| then None
    else
      var v := NatValue(digits);
      if v > 255 || (t[0] == '-' && v != 0) then None else Some(v)
  }

  lemma {:induction false} StripLeftNoCommas(s: string)
    requires ',' !in s
    ensures ',' !in StripLeft(s)
  {
    if s != "" && IsBlank(s[0]) {
      StripLeftNoCommas(s[1..]);
    }
  }

  /** A line without a comma is never taken for a position: status, error and buffer-space
      replies cannot be mistaken for the sentinel. */
  lemma NumbersAreNoPositions(line: string)
    requires ',' !in line
    ensures !IsPosition(line)
  {
    StripLeftNoCommas(line);
    var a := StripLeft(line);
    var i := ScanNumber(a);
    if i != -1 && i < |a| {
      assert a[i] in a;
    }
  }

  lemma IntTextHasNoCommas(n: int)
    ensures ',' !in IntText(n)
  {
    IntRoundTrip(n);
    PlainCharacters(IntText(n));
  }

  lemma BitParses(bit: string)
    requires bit == "0" || bit == "1"
    ensures LastField(bit) == Some(bit)
  {
    assert DigitsEnd(bit, 0) == 1 && bit[..1] == bit && bit[1..] == "";
  }

  lemma FieldCut(x: string, tail: string)
    requires Plain(x)
    ensures Field(x + ("," + tail)) == Some((x, tail))
  {
    PlainCharacters(x);
    ScanPlain(x, "," + tail);
    var line := x + ("," + tail);
    assert line[|x| + 1..] == tail && line[..|x|] == x;
  }

  lemma ParseTexts(x: string, y: string, bit: string)
    requires Plain(x) && Plain(y) && (bit == "0" || bit == "1")
    ensures ParsePosition(x + "," + y + "," + bit) == Some(Position(Value(x), Value(y), bit == "1"))
  {
    var tail := y + ("," + bit);
    assert x + "," + y + "," + bit == x + ("," + tail);
    FieldCut(x, tail);
    FieldCut(y, bit);
    BitParses(bit);
  }

  /** The plotter's position reply reads back as the truncated position and the pen state. */
  lemma PositionReadsBack(x: real, y: real, down: bool)
    ensures ParsePosition(PositionText(x, y, down)) == Some(Position(Trunc(x) as real, Trunc(y) as real, down))
  {
    IntRoundTrip(Trunc(x));
    IntRoundTrip(Trunc(y));
    ParseTexts(IntText(Trunc(x)), IntText(Trunc(y)), if down then "1" else "0");
  }

  /** Blanks in front of a field, and behind the last one, are skipped. */
  lemma BlanksAreSkipped(b: char, s: string)
    requires IsBlank(b)
    ensures Field([b] + s) == Field(s) && LastField([b] + s) == LastField(s)
    ensures ParsePosition([b] + s) == ParsePosition(s)
    ensures Plain(s) && '-' !in s && '.' !in s ==> LastField(s + [b]) == Some(s)
  {
    assert ([b] + s)[1..] == s;
    if Plain(s) && '-' !in s && '.' !in s {
      BlankBehind(b, s);
    }
  }

  lemma BlankBehind(b: char, s: string)
    requires IsBlank(b) && Plain(s) && '-' !in s && '.' !in s
    ensures LastField(s + [b]) == Some(s)
  {
    PlainCharacters(s);
    AllDigitsEnd(s, 0);
    DigitsEndStops(s, [b], 0);
    assert (s + [b])[..|s|] == s && (s + [b])[|s|..] == [b] && [b][1..] == "";
    assert StripLeft([b]) == StripLeft("") == "";
  }

  // ---- the waiting loop ---------------------------------------------------------------

  /** What one bounded read gives. */
  datatype Heard = Line(text: string) | Silence | Lost

  datatype Outcome = Sentinel(at: Position) | TimedOut | Disconnected | PortError

  /** The lines among the first `n` reads. */
  function LinesHeard(heard: nat -> Heard, n: nat): seq<string> {
    if n == 0 then []
    else
      var before := LinesHeard(heard, n - 1);
      match heard(n - 1)
      case Line(text) => before + [text]
      case _ => before
  }

  function Polls(k: nat): string { if k == 0 then "" else Polls(k - 1) + "OS;" }

  ghost predicate NoneIsPosition(lines: seq<string>) {
    forall i :: 0 <= i < |lines| ==> !IsPosition(lines[i])
  }

  /** A read that ends the waiting: a lost port, or a line in the shape of a position. */
  predicate Final(h: Heard) { h.Lost? || (h.Line? && IsPosition(h.text)) }

  /** How many status polls are due before the first `n` reads. */
  function DueBefore(due: nat -> bool, n: nat): nat {
    if n == 0 then 0 else DueBefore(due, n - 1) + if due(n - 1) then 1 else 0
  }

  /** The status bytes among some lines; anything else is ignored. */
  function Statuses(lines: seq<string>): seq<nat>
    decreases |lines|
  {
    if lines == [] then []
    else
      var before := Statuses(lines[..|lines| - 1]);
      match ParseStatus(lines[|lines| - 1])
      case Some(v) => before + [v]
      case None => before
  }

  lemma StatusesSnoc(lines: seq<string>, line: string)
    ensures Statuses(lines + [line]) ==
      match ParseStatus(line)
      case Some(v) => Statuses(lines) + [v]
      case None => Statuses(lines)
  {
    assert (lines + [line])[..|lines|] == lines;
  }

  /** The lines behind which a status byte may stand: all before the position, and the one behind. */
  function Others(lines: seq<string>, at: bool, behind: Heard): seq<string>
    requires at ==> lines != []
  {
    if !at then lines else lines[..|lines| - 1] + if behind.Line? then [behind.text] else []
  }

  /** How the waiting ends after `turns` reads.  The last read decides; only with none does the
      deadline, and a port lost right behind the position is noticed when status is wanted. */
  predicate EndsAs(outcome: Outcome, heard: nat -> Heard, turns: nat, limit: nat, wantStatus: bool) {
    match outcome
    case TimedOut => turns == limit && (turns > 0 ==> !Final(heard(turns - 1)))
    case Disconnected => turns > 0 && heard(turns - 1).Lost?
    case Sentinel(at) =>
      && turns > 0 && heard(turns - 1).Line? && ParsePosition(heard(turns - 1).text) == Some(at)
      && !(wantStatus && heard(turns).Lost?)
    case PortError =>
      turns > 0 && heard(turns - 1).Line? && IsPosition(heard(turns - 1).text) && wantStatus && heard(turns).Lost?
  }

  /** A position was heard. */
  predicate Answered(outcome: Outcome) { outcome.Sentinel? || outcome.PortError? }

  /** Send the sentinel, then read lines until one has the shape of a position.  `due(i)` says
      whether a status poll is due before read `i`, `limit` is the read before which the
      deadline has passed. */
  method CompletePlot(wantStatus: bool, due: nat -> bool, heard: nat -> Heard, limit: nat)
    returns (outcome: Outcome, written: string, polls: nat, lines: seq<string>, statuses: seq<nat>, turns: nat)
    ensures written == "OA;" + Polls(polls) && polls == if wantStatus then DueBefore(due, turns) else 0
    ensures turns <= limit && lines == LinesHeard(heard, turns)
    ensures forall i :: 0 <= i < turns - 1 ==> !Final(heard(i))
    ensures EndsAs(outcome, heard, turns, limit, wantStatus) && (Answered(outcome) ==> lines != [])
    ensures statuses == if wantStatus then Statuses(Others(lines, Answered(outcome), heard(turns))) else []
  {
    hide ParsePosition, ParseStatus, Statuses, Others;
    written, polls, lines, statuses, turns := "OA;", 0, [], [], 0;
    NoStatuses();
    assert "OA;" + Polls(0) == "OA;";
    while turns < limit
      invariant 0 <= turns <= limit && polls == if wantStatus then DueBefore(due, turns) else 0
      invariant written == "OA;" + Polls(polls) && lines == LinesHeard(heard, turns)
      invariant forall i :: 0 <= i < turns ==> !Final(heard(i))
      invariant statuses == if wantStatus then Statuses(lines) else []
    {
      if wantStatus && due(turns) {
        assert "OA;" + (Polls(polls) + "OS;") == written + "OS;";
        written, polls := written + "OS;", polls + 1;
      }
      turns := turns + 1;
      match heard(turns - 1) {
        case Lost =>
          OthersBefore(lines, heard(turns));
          return Disconnected, written, polls, lines, statuses, turns;
        case Silence =>
        case Line(text) =>
          ghost var before := lines;
          StatusesSnoc(before, text);
          lines := lines + [text];
          if IsPosition(text) {
            outcome := Sentinel(ParsePosition(text).value);
            OthersBehind(before, text, heard(turns));
            if wantStatus {
              match heard(turns) {
                case Lost => outcome := PortError;
                case Silence =>
                case Line(trailing) => statuses := Noted(statuses, trailing);
              }
            }
            return;
          }
          if wantStatus {
            statuses := Noted(statuses, text);
          }
      }
    }
    OthersBefore(lines, heard(turns));
    outcome := TimedOut;
  }

  lemma NoStatuses()
    ensures Statuses([]) == []
  {
  }

  lemma OthersBefore(lines: seq<string>, behind: Heard)
    ensures Others(lines, false, behind) == lines
  {
  }

  lemma OthersBehind(before: seq<string>, text: string, behind: Heard)
    ensures Statuses(Others(before + [text], true, behind)) ==
      if behind.Line? then Noted(Statuses(before), behind.text) else Statuses(before)
  {
    assert (before + [text])[..|before|] == before && before + [] == before;
    if behind.Line? {
      StatusesSnoc(before, behind.text);
    }
  }

  lemma {:induction false} HeardNoPosition(heard: nat -> Heard, n: nat)
    requires forall i :: 0 <= i < n ==> !Final(heard(i))
    ensures NoneIsPosition(LinesHeard(heard, n))
  {
    hide ParsePosition;
    if n > 0 {
      HeardNoPosition(heard, n - 1);
    }
  }

  /** The lines read hold a position exactly when the waiting ended with one, which is then the last
      of them. */
  lemma WaitingHears(outcome: Outcome, heard: nat -> Heard, turns: nat, limit: nat, wantStatus: bool)
    requires EndsAs(outcome, heard, turns, limit, wantStatus)
    requires forall i :: 0 <= i < turns - 1 ==> !Final(heard(i))
    ensures var lines := LinesHeard(heard, turns);
      if Answered(outcome)
      then lines != [] && NoneIsPosition(lines[..|lines| - 1]) && IsPosition(lines[|lines| - 1])
      else NoneIsPosition(lines)
  {
    hide ParsePosition;
    if turns > 0 {
      HeardNoPosition(heard, turns - 1);
    }
  }

  /** Best-effort status: anything else is ignored. */
  function Noted(statuses: seq<nat>, line: string): (r: seq<nat>)
    ensures (forall s :: s in statuses ==> s <= 255) ==> forall s :: s in r ==> s <= 255
  {
    match ParseStatus(line)
    case Some(v) => statuses + [v]
    case None => statuses
  }

  /** A whole number reads back as a status byte exactly when it is one. */
  lemma StatusReadsBack(n: int)
    ensures ParseStatus(IntText(n)) == if 0 <= n <= 255 then Some(n) else None
  {
    var m := if n < 0 then -n else n;
    var t := NatText(m);
    IntRoundTrip(n);
    PlainCharacters(IntText(n));
    StripTidy(IntText(n));
    AllDigitsEnd(t, 0);
    NatRoundTrip(m);
    assert IsDigit(t[0]);
    assert n < 0 ==> IntText(n)[1..] == t;
  }

  // ---- what the plotter answers -------------------------------------------------------

  /** The sentinel and the status polls, as the plotter sees them. */
  function Queries(k: nat): seq<string> {
    if k == 0 then ["OA"] else Queries(k - 1) + ["OS"]
  }

  lemma {:induction false} QueriesShape(k: nat)
    ensures |Queries(k)| == k + 1 && Queries(k)[0] == "OA"
    ensures forall i :: 1 <= i <= k ==> Queries(k)[i] == "OS"
  {
    if k > 0 {
      QueriesShape(k - 1);
    }
  }

  /** The bytes written by the waiting loop are these instructions. */
  lemma {:induction false} QueriesText(k: nat)
    ensures Terminate(Queries(k)) == "OA;" + Polls(k)
  {
    if k == 0 {
      assert Terminate(["OA"]) == "OA" + ";" + Terminate(["OA"][1..]);
    } else {
      QueriesText(k - 1);
      TerminateAppend(Queries(k - 1), ["OS"]);
      assert Terminate(["OS"]) == "OS" + ";" + Terminate(["OS"][1..]);
      assert ("OA;" + Polls(k - 1)) + ("OS" + ";") == "OA;" + (Polls(k - 1) + "OS;");
    }
  }

  /** The first `n` instructions never answer; behind them come a sentinel and polls, or nothing. */
  ghost predicate Asking(tokens: seq<string>, n: nat) {
    && n <= |tokens|
    && (forall i :: 0 <= i < n ==> !IsOutput(Mnemonic(tokens[i] + ";")))
    && (forall i :: n <= i < |tokens| ==> tokens[i] == if i == n then "OA" else "OS")
  }

  lemma QueryDeliverable(t: string)
    requires t == "OA" || t == "OS"
    ensures Deliverable(t) && !IsMover(Mnemonic(t))
    ensures forall entry :: LoggedAs(t, entry) ==> entry == if t == "OA" then "OA;" else "OS;"
  {
    assert Prefix(t, 2) == t && Upper(t) == t;
  }

  /** An accepted payload never answers, with or without queries behind it. */
  lemma PayloadAsking(text: string, clip: Option<Clip>, k: nat)
    requires Validator.Ok(text, clip)
    ensures Asking(Tokens(text), |Tokens(text)|) && AllDeliverable(Tokens(text))
    ensures Asking(Tokens(text) + Queries(k), |Tokens(text)|) && AllDeliverable(Tokens(text) + Queries(k))
  {
    var tokens := Tokens(text);
    forall i | 0 <= i < |tokens| ensures !IsOutput(Mnemonic(tokens[i] + ";")) {
      Soundness.AcceptedTokenIsSilent(text, clip, i);
    }
    Acceptance.AcceptedIsDeliverable(text, clip);
    QueriesShape(k);
    QueryDeliverable("OA");
    QueryDeliverable("OS");
  }

  lemma ExecuteSentinel(dev: Device)
    ensures Execute(dev, "OA;") == Effect(dev, Some(PositionText(dev.x, dev.y, dev.penDown)))
  {
    assert Prefix("OA;", 2) == "OA" && Upper("OA") == "OA";
  }

  lemma ExecutePoll(dev: Device)
    ensures Execute(dev, "OS;") == Effect(dev.(initialized := false), Some(IntText(StatusByte(dev))))
  {
    assert Prefix("OS;", 2) == "OS" && Upper("OS") == "OS";
  }

  lemma SilentEntry(t: string, entry: string)
    requires LoggedAs(t, entry) && !IsOutput(Mnemonic(t + ";"))
    ensures !IsOutput(Mnemonic(entry))
  {
    if entry != t + ";" {
      MoverTextNotOutput(t, t[2..] + ";");
      assert entry == Mnemonic(t) + (t[2..] + ";");
    }
  }

  /** The replies after `i` instructions: none before the sentinel; then the position the pen is
      still at, and status bytes behind it. */
  ghost predicate Told(n: nat, entry: seq<string>, p: Plotter, i: nat) {
    if i <= n then p.replies == entry
    else
      && |p.replies| == |entry| + (i - n) && entry <= p.replies
      && p.replies[|entry|] == PositionText(p.dev.x, p.dev.y, p.dev.penDown)
      && forall m :: |entry| < m < |p.replies| ==> !IsPosition(p.replies[m])
  }

  lemma SilentTold(n: nat, entry: seq<string>, p: Plotter, q: Plotter, i: nat, t: string, logged: string)
    requires i < n && Told(n, entry, p, i) && LoggedAs(t, logged) && !IsOutput(Mnemonic(t + ";"))
    requires Executes(p, q, logged)
    ensures Told(n, entry, q, i + 1)
  {
    SilentEntry(t, logged);
    OnlyOutputsReply(p.dev, logged);
  }

  lemma SentinelTold(n: nat, entry: seq<string>, p: Plotter, q: Plotter)
    requires Told(n, entry, p, n) && Executes(p, q, "OA;")
    ensures Told(n, entry, q, n + 1)
  {
    ExecuteSentinel(p.dev);
  }

  lemma PollTold(n: nat, entry: seq<string>, p: Plotter, q: Plotter, i: nat)
    requires i > n && Told(n, entry, p, i) && Executes(p, q, "OS;")
    ensures Told(n, entry, q, i + 1)
  {
    ExecutePoll(p.dev);
    IntTextHasNoCommas(StatusByte(p.dev));
    NumbersAreNoPositions(IntText(StatusByte(p.dev)));
  }

  /** One logged instruction. */
  lemma NextTold(tokens: seq<string>, n: nat, entry: seq<string>, p: Plotter, q: Plotter, i: nat, logged: string)
    requires Asking(tokens, n) && Told(n, entry, p, i)
    requires i < |tokens| && LoggedAs(tokens[i], logged) && Executes(p, q, logged)
    ensures Told(n, entry, q, i + 1)
  {
    hide Execute;
    if i < n {
      SilentTold(n, entry, p, q, i, tokens[i], logged);
    } else {
      QueryDeliverable(tokens[i]);
      if i == n {
        SentinelTold(n, entry, p, q);
      } else {
        PollTold(n, entry, p, q, i);
      }
    }
  }

  /** One round of the executor. */
  lemma WorkTold(tokens: seq<string>, n: nat, before: seq<string>, entry: seq<string>, unsent: string, p: Plotter,
      i: nat)
    returns (j: nat)
    requires AllDeliverable(tokens) && Asking(tokens, n)
    requires Follows(tokens, before, unsent, p, i) && Told(n, entry, p, i)
    ensures Follows(tokens, before, unsent, Work(p), j) && Told(n, entry, Work(p), j)
  {
    var r := WorkFollows(tokens, before, unsent, p, i);
    match r {
      case Next(logged) =>
        NextTold(tokens, n, entry, p, Work(p), i, logged);
        j := i + 1;
      case Same =>
        if n <= i < |tokens| {
          QueryDeliverable(tokens[i]);
        }
        j := i;
    }
  }

  /** Whatever the arrivals and rounds. */
  lemma {:induction false} PlayTold(tokens: seq<string>, n: nat, before: seq<string>, entry: seq<string>,
      unsent: string, p: Plotter, i: nat, turns: seq<Turn>)
    returns (j: nat)
    requires AllDeliverable(tokens) && Asking(tokens, n)
    requires Follows(tokens, before, unsent, p, i) && Told(n, entry, p, i)
    ensures var (q, left) := Play(p, unsent, turns); Follows(tokens, before, left, q, j) && Told(n, entry, q, j)
    decreases |turns|
  {
    if turns == [] {
      j := i;
    } else {
      match turns[0] {
        case Arrive(m) =>
          var k := Arrival(p, unsent, m);
          ArriveFollows(tokens, before, unsent, p, i, m);
          j := PlayTold(tokens, n, before, entry, unsent[k..], Accept(p, unsent[..k]), i, turns[1..]);
        case Execute1 =>
          var h := WorkTold(tokens, n, before, entry, unsent, p, i);
          j := PlayTold(tokens, n, before, entry, unsent, Work(p), h, turns[1..]);
      }
    }
  }

  // ---- soundness ----------------------------------------------------------------------

  /** While an accepted payload is on its way and being executed, under every schedule, the
      plotter says nothing, and its log is exactly the payload's instructions so far, in order. */
  lemma AcceptedIsSilent(text: string, clip: Option<Clip>, p: Plotter, turns: seq<Turn>) returns (j: nat)
    requires Validator.Ok(text, clip) && Tail(text) == "" && Idle(p)
    ensures var (q, left) := Play(p, text, turns);
      q.replies == p.replies && Follows(Tokens(text), p.commands, left, q, j)
  {
    var tokens := Tokens(text);
    PayloadAsking(text, clip, 0);
    TerminatedText(text);
    StartFollows(tokens, p);
    j := PlayTold(tokens, |tokens|, p.commands, p.replies, text, p, 0, turns);
  }

  /** A position among the replies read since entry is not one of the entry replies. */
  lemma PositionIsNew(entry: seq<string>, replies: seq<string>, base: nat, lines: seq<string>)
    requires base <= |entry| && NoneIsPosition(entry[base..])
    requires base <= |replies| && lines <= replies[base..]
    requires lines != [] && IsPosition(lines[|lines| - 1])
    ensures replies != entry
  {
    forall i | base <= i < |entry| ensures !IsPosition(entry[i]) {
      assert entry[i] == entry[base..][i - base];
    }
    var n := |lines| - 1;
    assert lines[n] == replies[base + n];
  }

  /** Among the replies from `base` on, exactly the one at `m` is a position. */
  ghost predicate OnlyPosition(replies: seq<string>, base: nat, m: nat) {
    && base <= m < |replies| && IsPosition(replies[m])
    && forall i :: base <= i < |replies| && i != m ==> !IsPosition(replies[i])
  }

  lemma ToldOnly(n: nat, entry: seq<string>, q: Plotter, i: nat, base: nat)
    requires i > n && Told(n, entry, q, i)
    requires base <= |entry| && NoneIsPosition(entry[base..])
    ensures OnlyPosition(q.replies, base, |entry|)
  {
    PositionReadsBack(q.dev.x, q.dev.y, q.dev.penDown);
    forall m | base <= m < |entry| ensures !IsPosition(q.replies[m]) {
      assert q.replies[m] == entry[m] == entry[base..][m - base];
    }
  }

  /** The first position read is that one. */
  lemma FirstPosition(replies: seq<string>, base: nat, m: nat, lines: seq<string>)
    requires OnlyPosition(replies, base, m) && lines <= replies[base..] && EndsInPosition(lines)
    ensures |lines| == m - base + 1 && lines[|lines| - 1] == replies[m]
  {
    var n := |lines| - 1;
    assert lines[n] == replies[base + n];
  }

  lemma LoggedFront(tokens: seq<string>, n: nat, before: seq<string>, after: seq<string>)
    requires n <= |tokens| && Logged(tokens, before, after)
    ensures Logged(tokens[..n], before, after[..|before| + n])
  {
    var front := after[..|before| + n];
    forall k | 0 <= k < n ensures LoggedAs(tokens[..n][k], front[|before| + k]) {
      assert LoggedAs(tokens[k], after[|before| + k]);
    }
  }

  /** Every payload instruction is in the log, in order, and something behind them. */
  ghost predicate AllExecuted(tokens: seq<string>, p: Plotter, q: Plotter) {
    var n := |p.commands| + |tokens|;
    n < |q.commands| && Logged(tokens, p.commands, q.commands[..n])
  }

  lemma ExecutedBefore(tokens: seq<string>, more: seq<string>, p: Plotter, left: string, q: Plotter, j: nat)
    requires Follows(tokens + more, p.commands, left, q, j) && j > |tokens|
    ensures AllExecuted(tokens, p, q)
  {
    var all := tokens + more;
    LoggedFront(all[..j], |tokens|, p.commands, q.commands);
    assert all[..j][..|tokens|] == tokens;
  }

  /** The last of these lines, and only that one, is a position. */
  ghost predicate EndsInPosition(lines: seq<string>) {
    lines != [] && NoneIsPosition(lines[..|lines| - 1]) && IsPosition(lines[|lines| - 1])
  }

  /** The run after the wait has begun. */
  lemma WaitFollows(text: string, clip: Option<Clip>, p: Plotter, before: seq<Turn>, k: nat, wait: seq<Turn>)
    returns (j: nat)
    requires Validator.Ok(text, clip) && Tail(text) == "" && Idle(p)
    ensures var (p0, unsent) := Play(p, text, before);
      var (q, left) := Play(p0, unsent + ("OA;" + Polls(k)), wait);
      && p0.replies == p.replies
      && Follows(Tokens(text) + Queries(k), p.commands, left, q, j) && Told(|Tokens(text)|, p.replies, q, j)
  {
    var tokens := Tokens(text);
    var (p0, unsent) := Play(p, text, before);
    var i := AcceptedIsSilent(text, clip, p, before);
    PayloadAsking(text, clip, k);
    QueriesText(k);
    MoreFollows(tokens, Queries(k), p.commands, unsent, p0, i);
    j := PlayTold(tokens + Queries(k), |tokens|, p.commands, p.replies, unsent + ("OA;" + Polls(k)), p0, i, wait);
  }

  /** Completion is sound, for every payload the validator accepts and every schedule.  While the
      payload may still be in the buffer or on the line, the driver sends the sentinel and `k`
      polls; at that moment the replies from `base` on are unread, none of them shaped like a
      position.  It has read `lines`, the last of which is.  Then every payload instruction has
      been executed, in order and before anything else; the line is the answer to the sentinel,
      and it is where the pen stands. */
  lemma CompletionIsSound(text: string, clip: Option<Clip>, p: Plotter, before: seq<Turn>, k: nat, wait: seq<Turn>,
                          base: nat, lines: seq<string>)
    requires Validator.Ok(text, clip) && Tail(text) == "" && Idle(p)
    requires var (p0, unsent) := Play(p, text, before);
      var (q, left) := Play(p0, unsent + ("OA;" + Polls(k)), wait);
      base <= |p0.replies| && NoneIsPosition(p0.replies[base..]) && base <= |q.replies| && lines <= q.replies[base..]
    requires EndsInPosition(lines)
    ensures var (p0, unsent) := Play(p, text, before);
      var (q, left) := Play(p0, unsent + ("OA;" + Polls(k)), wait);
      && AllExecuted(Tokens(text), p, q)
      && |lines| == |p0.replies| - base + 1
      && ParsePosition(lines[|lines| - 1]) ==
         Some(Position(Trunc(q.dev.x) as real, Trunc(q.dev.y) as real, q.dev.penDown))
  {
    var tokens := Tokens(text);
    var (p0, unsent) := Play(p, text, before);
    var (q, left) := Play(p0, unsent + ("OA;" + Polls(k)), wait);
    var j := WaitFollows(text, clip, p, before, k, wait);
    PositionIsNew(p.replies, q.replies, base, lines);
    ToldOnly(|tokens|, p.replies, q, j, base);
    FirstPosition(q.replies, base, |p.replies|, lines);
    PositionReadsBack(q.dev.x, q.dev.y, q.dev.penDown);
    ExecutedBefore(tokens, Queries(k), p, left, q, j);
  }

  // ---- where the pen then stands ------------------------------------------------------

  /** The queries as instructions of the reference execution. */
  function Questions(k: nat): seq<Instr> {
    if k == 0 then [Bare("OA")] else Questions(k - 1) + [Bare("OS")]
  }

  lemma {:induction false} QuestionsShape(k: nat)
    ensures |Questions(k)| == k + 1 && forall i :: 0 <= i <= k ==>
      Questions(k)[i] == Bare(if i == 0 then "OA" else "OS")
  {
    if k > 0 {
      QuestionsShape(k - 1);
    }
  }

  lemma {:induction false} QuestionsText(k: nat)
    ensures Script(Questions(k)) == "OA;" + Polls(k)
  {
    if k == 0 {
      assert Script([Bare("OA")]) == "OA" + ";" + Script([Bare("OA")][1..]);
    } else {
      QuestionsText(k - 1);
      ScriptAppend(Questions(k - 1), [Bare("OS")]);
      assert Script([Bare("OS")]) == "OS" + ";" + Script([Bare("OS")][1..]);
      assert ("OA;" + Polls(k - 1)) + ("OS" + ";") == "OA;" + (Polls(k - 1) + "OS;");
    }
  }

  lemma QuestionWellFormed(t: string)
    requires t == "OA" || t == "OS"
    ensures WellFormed(Bare(t))
  {
    Agreement.BareParams(t);
  }

  lemma QuestionsProgram(payload: seq<Instr>, k: nat)
    requires Program(payload)
    ensures Program(payload + Questions(k))
  {
    QuestionsShape(k);
    QuestionWellFormed("OA");
    QuestionWellFormed("OS");
  }

  /** The pen is at the same place, up or down alike. */
  predicate SamePlace(a: Record, b: Record) {
    a.dev.x == b.dev.x && a.dev.y == b.dev.y && a.dev.penDown == b.dev.penDown
  }

  lemma QuestionStaysPut(r: Record, i: Instr)
    requires i == Bare("OA") || i == Bare("OS")
    ensures SamePlace(r, Perform(r, i))
  {
    assert TextOf(Bare("OA")) + ";" == "OA;" && TextOf(Bare("OS")) + ";" == "OS;";
    ExecuteSentinel(r.dev);
    ExecutePoll(r.dev);
  }

  lemma PerformQuestion(r0: Record, instrs: seq<Instr>, i: nat)
    requires i < |instrs| && (instrs[i] == Bare("OA") || instrs[i] == Bare("OS"))
    ensures SamePlace(PerformAll(r0, instrs[..i]), PerformAll(r0, instrs[..i + 1]))
  {
    PerformNext(r0, instrs, i);
    QuestionStaysPut(PerformAll(r0, instrs[..i]), instrs[i]);
  }

  lemma {:induction false} QuestionsStayPut(r0: Record, instrs: seq<Instr>, lo: nat, hi: nat)
    requires lo <= hi <= |instrs|
    requires forall i :: lo <= i < hi ==> instrs[i] == Bare("OA") || instrs[i] == Bare("OS")
    ensures SamePlace(PerformAll(r0, instrs[..lo]), PerformAll(r0, instrs[..hi]))
    decreases hi
  {
    hide Execute;
    if lo < hi {
      QuestionsStayPut(r0, instrs, lo, hi - 1);
      PerformQuestion(r0, instrs, hi - 1);
    }
  }

  lemma {:induction false} PerformCounts(r0: Record, instrs: seq<Instr>, i: nat)
    requires i <= |instrs|
    ensures |PerformAll(r0, instrs[..i]).commands| <= |r0.commands| + i
    decreases i
  {
    if i > 0 {
      PerformCounts(r0, instrs, i - 1);
      PerformNext(r0, instrs, i - 1);
    }
  }

  /** Progress into a query is always between instructions. */
  lemma QuestionsHaveNoInside(r0: Record, payload: seq<Instr>, k: nat, unsent: string, p: Plotter, g: Progress)
    requires Program(payload + Questions(k)) && Consistent(r0, payload + Questions(k), unsent, p, g)
    ensures g.i <= |payload| + k + 1
    ensures var r := PerformAll(r0, (payload + Questions(k))[..g.i]);
      p.commands == r.commands && (g.i >= |payload| ==> p.dev == r.dev)
  {
    QuestionsShape(k);
    ConsistentRecord(r0, payload + Questions(k), unsent, p, g);
    if |payload| <= g.i < |payload| + k + 1 {
      assert (payload + Questions(k))[g.i] == Questions(k)[g.i - |payload|];
    }
  }

  lemma ScriptRest(payload: seq<Instr>, tail: seq<Instr>, i: nat)
    requires i <= |payload|
    ensures Script((payload + tail)[i..]) == Script(payload[i..]) + Script(tail)
    ensures (payload + tail)[..i] == payload[..i]
  {
    assert (payload + tail)[i..] == payload[i..] + tail;
    ScriptAppend(payload[i..], tail);
  }

  /** A run of the payload is a run of the payload and whatever follows. */
  lemma ExtendConsistent(r0: Record, payload: seq<Instr>, tail: seq<Instr>, unsent: string, p: Plotter, g: Progress)
    requires Program(payload) && Program(payload + tail) && Consistent(r0, payload, unsent, p, g)
    ensures Consistent(r0, payload + tail, unsent + Script(tail), p, g)
  {
    match g {
      case At(i) => ExtendAt(r0, payload, tail, unsent, p, i);
      case Inside(i, j) => ExtendInside(r0, payload, tail, unsent, p, i, j);
    }
  }

  lemma ExtendAt(r0: Record, payload: seq<Instr>, tail: seq<Instr>, unsent: string, p: Plotter, i: nat)
    requires Program(payload) && Program(payload + tail) && Consistent(r0, payload, unsent, p, At(i))
    ensures Consistent(r0, payload + tail, unsent + Script(tail), p, At(i))
  {
    ScriptRest(payload, tail, i);
    JoinTexts(p.inbuf, unsent, "", Script(payload[i..]), Script(tail));
  }

  lemma ExtendInside(r0: Record, payload: seq<Instr>, tail: seq<Instr>, unsent: string, p: Plotter, i: nat, j: nat)
    requires Program(payload) && Program(payload + tail) && Consistent(r0, payload, unsent, p, Inside(i, j))
    ensures Consistent(r0, payload + tail, unsent + Script(tail), p, Inside(i, j))
  {
    ScriptRest(payload, tail, i);
    ScriptRest(payload, tail, i + 1);
    var body := PairsText(payload[i].pairs[j..]) + ";";
    JoinTexts(p.inbuf, unsent, body, Script(payload[i + 1..]), Script(tail));
    assert (payload + tail)[i] == payload[i];
  }

  /** The wait's run against the reference execution. */
  lemma WaitConsistent(payload: seq<Instr>, p: Plotter, before: seq<Turn>, k: nat, wait: seq<Turn>)
    returns (g: Progress)
    requires Program(payload) && Program(payload + Questions(k)) && Idle(p)
    ensures var (p0, unsent) := Play(p, Script(payload), before);
      var (q, left) := Play(p0, unsent + ("OA;" + Polls(k)), wait);
      Consistent(RecordOf(p), payload + Questions(k), left, q, g)
  {
    var r0, text := RecordOf(p), Script(payload);
    var (p0, unsent) := Play(p, text, before);
    IdleIsConsistent(p, payload);
    var g0 := PlayKeeps(r0, payload, text, p, At(0), before);
    QuestionsText(k);
    ExtendConsistent(r0, payload, Questions(k), unsent, p0, g0);
    g := PlayKeeps(r0, payload + Questions(k), unsent + ("OA;" + Polls(k)), p0, g0, wait);
  }

  /** Once more than the payload is in the log, the pen stands where the reference has it. */
  lemma ReferencePlace(r0: Record, payload: seq<Instr>, k: nat, left: string, q: Plotter, g: Progress)
    requires Program(payload + Questions(k)) && Consistent(r0, payload + Questions(k), left, q, g)
    requires |q.commands| > |r0.commands| + |payload|
    ensures SamePlace(PerformAll(r0, payload), RecordOf(q))
  {
    hide Execute;
    var all := payload + Questions(k);
    QuestionsHaveNoInside(r0, payload, k, left, q, g);
    QuestionsShape(k);
    PerformCounts(r0, all, g.i);
    assert all[..|payload|] == payload;
    QuestionsStayPut(r0, all, |payload|, g.i);
  }

  /** A payload that need not complete: an accepted mover with a blank behind its mnemonic, whose
      first three bytes arrive alone, is never executed, whatever follows it.  The wait hears
      nothing, however long it lasts. */
  lemma SpacedMoverNeverCompletes(head: string, pairs: seq<Pair>, clip: Option<Clip>, p: Plotter, before: seq<Turn>,
                                  k: nat, wait: seq<Turn>)
    requires (head == "PU" || head == "PD" || head == "PA") && PlainPairs(pairs) && pairs != [] && Idle(p)
    requires Validator.Ok(head + PairsText(pairs) + ";", clip)
    requires |Acceptance.Spaced(head, pairs)| < Validator.MAX_JOB_BYTES
    ensures var text := Acceptance.Spaced(head, pairs) + ";";
      var (p0, unsent) := Play(p, text, [Arrive(3), Execute1]);
      var (p1, rest) := Play(p0, unsent, before);
      var q := Play(p1, rest + ("OA;" + Polls(k)), wait).0;
      && Validator.Ok(text, clip) && Tail(text) == ""
      && q.commands == p.commands && q.replies == p.replies
  {
    hide Play, Validator.Ok, Plain, PairsText, Tail, Tokens;
    var text := Acceptance.Spaced(head, pairs) + ";";
    Acceptance.SpacedIsAccepted(head, pairs, clip);
    assert Prefix(text, 2) == head && Upper(head) == head;
    EntersStalled(p, text);
    var (p0, unsent) := Play(p, text, [Arrive(3), Execute1]);
    StalledForever(p0, unsent, before);
    var (p1, rest) := Play(p0, unsent, before);
    StalledForever(p1, rest + ("OA;" + Polls(k)), wait);
  }

  /** For a program of absolute movers the position that completes the wait is also the one that
      executing every instruction whole would have reached. */
  lemma CompletionGivesReference(payload: seq<Instr>, clip: Option<Clip>, p: Plotter, before: seq<Turn>, k: nat,
                                 wait: seq<Turn>, base: nat, lines: seq<string>)
    requires Program(payload) && Validator.Ok(Script(payload), clip) && Idle(p)
    requires var (p0, unsent) := Play(p, Script(payload), before);
      var (q, left) := Play(p0, unsent + ("OA;" + Polls(k)), wait);
      base <= |p0.replies| && NoneIsPosition(p0.replies[base..]) && base <= |q.replies| && lines <= q.replies[base..]
    requires EndsInPosition(lines)
    ensures var done := PerformAll(RecordOf(p), payload);
      ParsePosition(lines[|lines| - 1]) ==
        Some(Position(Trunc(done.dev.x) as real, Trunc(done.dev.y) as real, done.dev.penDown))
  {
    hide Execute;
    var (p0, unsent) := Play(p, Script(payload), before);
    var (q, left) := Play(p0, unsent + ("OA;" + Polls(k)), wait);
    Agreement.ProgramUndivided(payload);
    Agreement.ScriptTokens(payload);
    CompletionIsSound(Script(payload), clip, p, before, k, wait, base, lines);
    QuestionsProgram(payload, k);
    var g := WaitConsistent(payload, p, before, k, wait);
    ReferencePlace(RecordOf(p), payload, k, left, q, g);
  }

  // ---- room for the polls -------------------------------------------------------------

  lemma {:induction false} PollsLength(k: nat)
    ensures |Polls(k)| == 3 * k
  {
    if k > 0 {
      PollsLength(k - 1);
    }
  }

  /** The sentinel and `k` polls, sent while nothing drains, are all accepted exactly when there
      is room for their 3 + 3k bytes; otherwise bytes are lost and the overflow error latched. */
  lemma PollsFitExactly(p: Plotter, k: nat)
    requires |p.inbuf| <= Protocol.INPUT_BUFFER_BYTES
    ensures var q := Accept(p, "OA;" + Polls(k));
      if |p.inbuf| + 3 + 3 * k <= Protocol.INPUT_BUFFER_BYTES then q == p.(inbuf := p.inbuf + ("OA;" + Polls(k)))
      else q.dev.rs232Error == Protocol.OVERFLOW_ERROR && |q.inbuf| < |p.inbuf| + 3 + 3 * k
  {
    PollsLength(k);
  }

  /** With at least `margin` bytes free, (margin - 3) / 3 undrained polls always fit; when exactly
      `margin` bytes are free, one more does not. */
  lemma MarginPolls(p: Plotter, margin: nat, k: nat)
    requires 3 <= margin <= Protocol.INPUT_BUFFER_BYTES && |p.inbuf| <= Protocol.INPUT_BUFFER_BYTES - margin
    ensures var fits := Accept(p, "OA;" + Polls(k)) == p.(inbuf := p.inbuf + ("OA;" + Polls(k)));
      (k <= (margin - 3) / 3 ==> fits)
        && (|p.inbuf| == Protocol.INPUT_BUFFER_BYTES - margin && fits ==> k <= (margin - 3) / 3)
  {
    PollsLength(k);
    PollsFitExactly(p, k);
  }

  /** After streaming with fresh readings that room is there: whatever of the payload is still in
      the buffer or on the line, even if all of it arrives before anything drains. */
  lemma PollsFitAfterStreaming(cfg: S.Config, payload: string, residue: string, s: Link.System, p: Plotter, k: nat)
    requires Link.Reachable(cfg, payload, residue, 0, s) && |residue| <= Protocol.INPUT_BUFFER_BYTES - cfg.margin
    requires 3 <= cfg.margin <= Protocol.INPUT_BUFFER_BYTES && k <= (cfg.margin - 3) / 3
    requires !s.closed && s.sent <= |payload| && s.arrived <= |Link.Wire(payload, s)|
    requires |p.inbuf| <= |s.buffer| + |Link.Wire(payload, s)[s.arrived..]|
    ensures Accept(p, "OA;" + Polls(k)) == p.(inbuf := p.inbuf + ("OA;" + Polls(k)))
  {
    Link.NoOverflow(cfg, payload, residue, 0, s);
    MarginPolls(p, cfg.margin, k);
  }

  /** With the shipped margin the 105th poll still fits and the 106th does not, while a wait of
      600 seconds at one poll a second makes up to 600. */
  lemma ShippedPolls(p: Plotter, k: nat)
    requires |p.inbuf| == Protocol.INPUT_BUFFER_BYTES - 320
    ensures Accept(p, "OA;" + Polls(k)).inbuf == p.inbuf + ("OA;" + Polls(k)) <==> k <= 105
  {
    PollsLength(k);
    PollsFitExactly(p, k);
  }
}
