/** The emulated plotter's executor. */
module Emulator {
  // Bytes arrive whenever they like, whole instructions pop at their terminator, and a mover
  // whose terminator is still missing pops pair by pair.  Any schedule ends where
  // whole-instruction execution ends.

  import opened Protocol
  import opened Text
  import opened Numbers
  import opened Device

  /** The pair pattern looks at this many bytes. */
  const PAIR_WINDOW: nat := 64

  datatype Plotter = Plotter(
    inbuf: string, mover: Option<string>, token: string, dev: Device,
    commands: seq<string>, replies: seq<string>, halted: bool)

  /** Length of a complete coordinate pair with its separator at the front of `s`. */
  function MatchPair(s: string): (r: Option<nat>)
    ensures r.Some? ==> 0 < r.value <= |s| && (s[r.value - 1] == ',' || s[r.value - 1] == ';')
  {
    var i := ScanNumber(s);
    if i == -1 || i == |s| || s[i] != ',' then None
    else
      var j := ScanNumber(s[i + 1..]);
      if j == -1 || i + 1 + j == |s| then None
      else
        var c := s[i + 1 + j];
        if c == ',' || c == ';' then Some(i + 1 + j + 1) else None
  }

  /** The next executable unit while a mover is being executed pair by pair. */
  function PopPair(p: Plotter): (Option<string>, Plotter) {
    var head := Prefix(p.inbuf, PAIR_WINDOW);
    if head != "" && head[0] == ';' then
      (Some(p.token + ";"), p.(inbuf := p.inbuf[1..], mover := None, token := ""))
    else
      match MatchPair(head)
      case Some(n) =>
        var token := p.token + p.inbuf[..n];
        if head[n - 1] == ';' then (Some(token), p.(inbuf := p.inbuf[n..], mover := None, token := ""))
        else (Some(token), p.(inbuf := p.inbuf[n..], token := token))
      case None =>
        if head != "" && IsAlpha(head[0]) then
          (None, p.(dev := p.dev.(hpglError := 1), mover := None, token := ""))
        else (None, p)
  }

  function PopToken(p: Plotter): (Option<string>, Plotter) {
    if p.mover.Some? then PopPair(p)
    else
      var idx := Find(p.inbuf, ';', 0, |p.inbuf|);
      if idx == -1 then
        var head := Mnemonic(p.inbuf);
        if IsMover(head) && |p.inbuf| > 2
        then PopPair(p.(mover := Some(head), token := head, inbuf := p.inbuf[2..]))
        else (None, p)
      else (Some(p.inbuf[..idx + 1]), p.(inbuf := p.inbuf[idx + 1..]))
  }

  /** Executing a popped token; only terminated tokens are logged. */
  function Settle(p: Plotter, token: string): Plotter {
    var logged := if Terminated(token) then p.(commands := p.commands + [token]) else p;
    match Execute(p.dev, token)
    case Crash => logged.(halted := true)
    case Effect(dev, reply) =>
      logged.(dev := dev, replies := if reply.Some? then p.replies + [reply.value] else p.replies)
  }

  /** One round of the executor. */
  function Work(p: Plotter): Plotter {
    if p.halted then p
    else
      var (token, p') := PopToken(p);
      if token.Some? then Settle(p', token.value) else p'
  }

  /** One arrival of graphics bytes: what does not fit is dropped and latches error 16. */
  function Accept(p: Plotter, bytes: string): Plotter {
    var room := if |p.inbuf| < INPUT_BUFFER_BYTES then INPUT_BUFFER_BYTES - |p.inbuf| else 0;
    if |bytes| <= room then p.(inbuf := p.inbuf + bytes)
    else p.(inbuf := p.inbuf + bytes[..room], dev := p.dev.(rs232Error := OVERFLOW_ERROR))
  }

  // ---- programs -----------------------------------------------------------------------

  datatype Instr = Bare(text: string) | Mover(head: string, pairs: seq<Pair>)

  function TextOf(i: Instr): string {
    match i
    case Bare(t) => t
    case Mover(h, ps) => h + PairsText(ps)
  }

  /** Absolute movers with plain pairs, and anything that is not a longer mover. */
  ghost predicate WellFormed(i: Instr) {
    match i
    case Bare(t) =>
      && ';' !in t
      && (|t| <= 2 || !IsMover(Mnemonic(t)))
      && !Execute(PowerUp(A4_CLIP), t + ";").Crash?
    case Mover(h, ps) =>
      && (h == "PU" || h == "PD" || h == "PA")
      && ps != [] && PlainPairs(ps)
      && forall k :: 0 <= k < |ps| ==> |PairText(ps[k])| < PAIR_WINDOW
  }

  ghost predicate Program(instrs: seq<Instr>) {
    forall i :: 0 <= i < |instrs| ==> WellFormed(instrs[i])
  }

  function Script(instrs: seq<Instr>): string {
    if instrs == [] then "" else TextOf(instrs[0]) + ";" + Script(instrs[1..])
  }

  lemma {:induction false} ScriptAppend(a: seq<Instr>, b: seq<Instr>)
    ensures Script(a + b) == Script(a) + Script(b)
  {
    if a == [] {
      assert a + b == b;
    } else {
      assert (a + b)[1..] == a[1..] + b;
      ScriptAppend(a[1..], b);
    }
  }

  /** What is visible of a run: the device, the command log, the replies. */
  datatype Record = Record(dev: Device, commands: seq<string>, replies: seq<string>)

  function RecordOf(p: Plotter): Record { Record(p.dev, p.commands, p.replies) }

  /** Reference: one instruction executed whole. */
  function Perform(r: Record, i: Instr): Record {
    var token := TextOf(i) + ";";
    match Execute(r.dev, token)
    case Crash => r
    case Effect(dev, reply) =>
      Record(dev, r.commands + [token], if reply.Some? then r.replies + [reply.value] else r.replies)
  }

  function PerformAll(r: Record, instrs: seq<Instr>): Record {
    if instrs == [] then r else Perform(PerformAll(r, instrs[..|instrs| - 1]), instrs[|instrs| - 1])
  }

  // ---- movers -------------------------------------------------------------------------

  function PenSet(dev: Device, head: string): Device {
    if head == "PU" || head == "PD" then dev.(penDown := head == "PD") else dev
  }

  /** The device after the given pairs of an absolute mover. */
  function Touched(dev: Device, head: string, pairs: seq<Pair>): Device
    requires PlainPairs(pairs)
  {
    if pairs == [] then dev
    else
      var last := pairs[|pairs| - 1];
      assert PlainPair(last);
      Target(PenSet(dev, head), Value(last.x), Value(last.y), false)
  }

  lemma TouchedTwice(dev: Device, head: string, a: seq<Pair>, b: seq<Pair>)
    requires PlainPairs(a) && PlainPairs(b) && b != []
    ensures Touched(Touched(dev, head, a), head, b) == Touched(dev, head, b)
  {
  }

  lemma ExecuteKnown(dev: Device, head: string, body: string, token: string)
    requires head == "PU" || head == "PD" || head == "PA" || head == "PR"
    requires Mnemonic(token) == head && Params(token) == body
    ensures Execute(dev, token) == Effect(Move(PenSet(dev, head), body, head == "PR"), None)
  {
  }

  lemma ExecuteAbsolute(dev: Device, head: string, body: string, token: string)
    requires head == "PU" || head == "PD" || head == "PA"
    requires body != "" && Tidy(body) && IsDigit(body[|body| - 1])
    requires token == head + body + ";" || token == head + body + ","
    ensures Execute(dev, token) == Effect(Move(PenSet(dev, head), body, false), None)
  {
    ParamsOf(head, body, token);
    assert Upper(head) == head;
    ExecuteKnown(dev, head, body, token);
  }

  lemma MoveTouched(dev: Device, head: string, pairs: seq<Pair>)
    requires pairs != [] && PlainPairs(pairs)
    ensures Move(PenSet(dev, head), PairsText(pairs), false) == Touched(dev, head, pairs)
  {
    MovePairs(PenSet(dev, head), pairs, false);
  }

  lemma ExecuteMover(dev: Device, head: string, pairs: seq<Pair>, token: string)
    requires head == "PU" || head == "PD" || head == "PA"
    requires pairs != [] && PlainPairs(pairs)
    requires token == head + PairsText(pairs) + ";" || token == head + PairsText(pairs) + ","
    ensures Execute(dev, token) == Effect(Touched(dev, head, pairs), None)
  {
    PairsTextEnds(pairs);
    ExecuteAbsolute(dev, head, PairsText(pairs), token);
    MoveTouched(dev, head, pairs);
  }

  lemma CrashIsTextual(dev: Device, dev': Device, token: string)
    ensures Execute(dev, token).Crash? <==> Execute(dev', token).Crash?
  {
  }

  lemma {:induction false} PairsTextSnoc(pairs: seq<Pair>, p: Pair)
    requires pairs != []
    ensures PairsText(pairs + [p]) == PairsText(pairs) + "," + PairText(p)
  {
    if |pairs| == 1 {
      assert (pairs + [p])[1..] == [p];
    } else {
      PairsTextSnoc(pairs[1..], p);
      assert (pairs + [p])[1..] == pairs[1..] + [p];
    }
  }

  // ---- matching pairs in the buffer ---------------------------------------------------

  lemma MatchParts(s: string, i: nat, j: nat)
    requires ScanNumber(s) == i < |s| && s[i] == ','
    requires ScanNumber(s[i + 1..]) == j && i + 1 + j < |s| && (s[i + 1 + j] == ',' || s[i + 1 + j] == ';')
    ensures MatchPair(s) == Some(i + 1 + j + 1)
  {
  }

  lemma MatchTexts(x: string, y: string, tail: string)
    requires Plain(x) && Plain(y) && tail != "" && (tail[0] == ',' || tail[0] == ';')
    ensures MatchPair(x + ("," + (y + tail))) == Some(|x| + 1 + |y| + 1)
  {
    hide Plain, ScanNumber, MatchPair;
    var rest := y + tail;
    var s := x + ("," + rest);
    assert s[|x| + 1..] == rest;
    ScanPlain(x, "," + rest);
    ScanPlain(y, tail);
    MatchParts(s, |x|, |y|);
  }

  lemma MatchFull(q: Pair, tail: string)
    requires PlainPair(q) && tail != "" && (tail[0] == ',' || tail[0] == ';')
    ensures MatchPair(PairText(q) + tail) == Some(|PairText(q)| + 1)
  {
    MatchTexts(q.x, q.y, tail);
    assert PairText(q) + tail == q.x + ("," + (q.y + tail));
  }

  lemma MatchShort(q: Pair, s: string)
    requires PlainPair(q) && s <= PairText(q)
    ensures MatchPair(s).None?
    ensures s != "" ==> s[0] != ';' && !IsAlpha(s[0])
  {
    PlainCharacters(q.x);
    PlainCharacters(q.y);
    if |s| > |q.x| {
      var y := s[|q.x| + 1..];
      assert s == q.x + ("," + y);
      ScanPlain(q.x, "," + y);
      assert y <= q.y;
      assert forall i :: 0 <= i < |y| ==> y[i] == q.y[i];
    } else {
      assert s <= q.x;
      assert forall i :: 0 <= i < |s| ==> s[i] == q.x[i];
    }
  }

  // ---- the invariant ------------------------------------------------------------------

  /** How far execution has come: before instruction `i`, or inside it after `j` pairs. */
  datatype Progress = At(i: nat) | Inside(i: nat, j: nat)

  /** The mover token of the pairs popped so far. */
  function PartialToken(head: string, pairs: seq<Pair>): string {
    if pairs == [] then head else head + PairsText(pairs) + ","
  }

  lemma PlainSlices(pairs: seq<Pair>, j: nat)
    requires PlainPairs(pairs) && j <= |pairs|
    ensures PlainPairs(pairs[..j]) && PlainPairs(pairs[j..])
  {
  }

  ghost predicate Consistent(r0: Record, instrs: seq<Instr>, unsent: string, p: Plotter, g: Progress)
    requires Program(instrs)
  {
    && !p.halted
    && g.i <= |instrs|
    && var before := PerformAll(r0, instrs[..g.i]);
    match g
    case At(i) =>
      && p.mover == None && p.token == ""
      && p.inbuf + unsent == Script(instrs[i..])
      && RecordOf(p) == before
    case Inside(i, j) =>
      && i < |instrs| && instrs[i].Mover? && j < |instrs[i].pairs|
      && var pairs := instrs[i].pairs;
      && p.mover == Some(instrs[i].head)
      && p.token == PartialToken(instrs[i].head, pairs[..j])
      && p.inbuf + unsent == PairsText(pairs[j..]) + ";" + Script(instrs[i + 1..])
      && WellFormed(instrs[i])
      && PlainPairs(pairs[..j])
      && RecordOf(p) == before.(dev := Touched(before.dev, instrs[i].head, pairs[..j]))
  }

  /** What a consistent run shows, without its text. */
  lemma ConsistentRecord(r0: Record, instrs: seq<Instr>, unsent: string, p: Plotter, g: Progress)
    requires Program(instrs) && Consistent(r0, instrs, unsent, p, g)
    ensures g.i <= |instrs| && (g.Inside? ==> g.i < |instrs| && instrs[g.i].Mover?)
    ensures var r := PerformAll(r0, instrs[..g.i]);
      p.replies == r.replies && p.commands == r.commands && (g.At? ==> p.dev == r.dev)
  {
  }

  lemma PerformNext(r0: Record, instrs: seq<Instr>, i: nat)
    requires i < |instrs|
    ensures PerformAll(r0, instrs[..i + 1]) == Perform(PerformAll(r0, instrs[..i]), instrs[i])
  {
    assert instrs[..i + 1][..i] == instrs[..i];
  }

  lemma ScriptNext(instrs: seq<Instr>, i: nat)
    requires i < |instrs|
    ensures Script(instrs[i..]) == TextOf(instrs[i]) + (";" + Script(instrs[i + 1..]))
  {
    assert instrs[i..][1..] == instrs[i + 1..];
  }

  /** What is left of a mover's text: the next pair and what follows it. */
  function TailAfter(pairs: seq<Pair>, rest: string): string
    requires pairs != []
  {
    if |pairs| == 1 then ";" + rest else "," + PairsText(pairs[1..]) + ";" + rest
  }

  lemma NextPair(pairs: seq<Pair>, rest: string)
    requires pairs != []
    ensures PairsText(pairs) + ";" + rest == PairText(pairs[0]) + TailAfter(pairs, rest)
  {
  }

  /** The window on the buffer shows an arrived pair and its separator. */
  lemma ArrivedInWindow(inbuf: string, q: Pair, rest: string)
    requires PlainPair(q) && |PairText(q)| < PAIR_WINDOW
    requires inbuf == PairText(q) + rest && rest != "" && (rest[0] == ',' || rest[0] == ';')
    ensures var head := Prefix(inbuf, PAIR_WINDOW);
      var n := |PairText(q)| + 1;
      && MatchPair(head) == Some(n) && n <= |head| && head[n - 1] == rest[0] && head[0] != ';'
      && inbuf[..n] == PairText(q) + [rest[0]] && inbuf[n..] == rest[1..]
  {
    var text := PairText(q);
    var head := Prefix(inbuf, PAIR_WINDOW);
    var seen := head[|text|..];
    assert head == text + seen && seen[0] == rest[0];
    MatchFull(q, seen);
    PlainCharacters(q.x);
    assert head[0] == q.x[0];
  }

  /** Inside a mover, a pair that has fully arrived pops with its separator. */
  lemma PopArrivedPair(p: Plotter, q: Pair, rest: string)
    requires PlainPair(q) && |PairText(q)| < PAIR_WINDOW
    requires p.inbuf == PairText(q) + rest && rest != "" && (rest[0] == ',' || rest[0] == ';')
    ensures var token := p.token + PairText(q) + [rest[0]];
      PopPair(p) ==
        (Some(token), if rest[0] == ';' then p.(inbuf := rest[1..], mover := None, token := "")
                      else p.(inbuf := rest[1..], token := token))
  {
    ArrivedInWindow(p.inbuf, q, rest);
    assert p.token + (PairText(q) + [rest[0]]) == p.token + PairText(q) + [rest[0]];
  }

  /** A pair still on its way leaves the executor waiting. */
  lemma PopMissingPair(p: Plotter, q: Pair)
    requires PlainPair(q) && |PairText(q)| < PAIR_WINDOW
    requires p.inbuf <= PairText(q)
    ensures PopPair(p) == (None, p)
  {
    assert Prefix(p.inbuf, PAIR_WINDOW) == p.inbuf;
    MatchShort(q, p.inbuf);
  }

  lemma WorkMissesPair(p: Plotter, q: Pair)
    requires p.mover.Some? && PlainPair(q) && |PairText(q)| < PAIR_WINDOW && p.inbuf <= PairText(q)
    ensures Work(p) == p
  {
    PopMissingPair(p, q);
  }

  // ---- one round keeps the invariant --------------------------------------------------

  lemma PartialTokenNext(head: string, pairs: seq<Pair>, j: nat)
    requires j < |pairs|
    ensures PartialToken(head, pairs[..j]) + PairText(pairs[j]) == head + PairsText(pairs[..j + 1])
  {
    assert pairs[..j + 1] == pairs[..j] + [pairs[j]];
    if j > 0 {
      PairsTextSnoc(pairs[..j], pairs[j]);
    }
  }

  /** A popped pair's token moves the pen to that pair, whatever was executed before. */
  lemma SettlePair(p: Plotter, before: Device, head: string, pairs: seq<Pair>, j: nat, token: string)
    requires head == "PU" || head == "PD" || head == "PA"
    requires j < |pairs| && PlainPairs(pairs) && PlainPairs(pairs[..j]) && PlainPairs(pairs[..j + 1])
    requires p.dev == Touched(before, head, pairs[..j])
    requires token == head + PairsText(pairs[..j + 1]) + ";" || token == head + PairsText(pairs[..j + 1]) + ","
    ensures Settle(p, token) ==
      p.(dev := Touched(before, head, pairs[..j + 1]),
         commands := if Terminated(token) then p.commands + [token] else p.commands)
  {
    ExecuteMover(p.dev, head, pairs[..j + 1], token);
    TouchedTwice(before, head, pairs[..j], pairs[..j + 1]);
  }

  lemma PerformMover(r: Record, i: Instr)
    requires i.Mover? && WellFormed(i)
    ensures Perform(r, i) == Record(Touched(r.dev, i.head, i.pairs), r.commands + [TextOf(i) + ";"], r.replies)
  {
    ExecuteMover(r.dev, i.head, i.pairs, TextOf(i) + ";");
  }

  /** One round on an arrived pair, in full. */
  lemma WorkPair(p: Plotter, before: Device, head: string, pairs: seq<Pair>, j: nat, rest: string)
    requires head == "PU" || head == "PD" || head == "PA"
    requires j < |pairs| && PlainPairs(pairs) && PlainPairs(pairs[..j]) && PlainPairs(pairs[..j + 1])
    requires !p.halted && p.mover.Some? && p.token == PartialToken(head, pairs[..j])
    requires p.dev == Touched(before, head, pairs[..j])
    requires |PairText(pairs[j])| < PAIR_WINDOW
    requires p.inbuf == PairText(pairs[j]) + rest && rest != "" && (rest[0] == ',' || rest[0] == ';')
    ensures var token := head + PairsText(pairs[..j + 1]) + [rest[0]];
      Work(p) == p.(
        inbuf := rest[1..],
        mover := if rest[0] == ';' then None else p.mover,
        token := if rest[0] == ';' then "" else token,
        dev := Touched(before, head, pairs[..j + 1]),
        commands := if rest[0] == ';' then p.commands + [token] else p.commands)
  {
    assert PlainPair(pairs[j]);
    PopArrivedPair(p, pairs[j], rest);
    PartialTokenNext(head, pairs, j);
    SettlePair(PopPair(p).1, before, head, pairs, j, head + PairsText(pairs[..j + 1]) + [rest[0]]);
  }

  /** Where an arrival boundary cuts a text and what follows it. */
  lemma CutText(text: string, tail: string, inbuf: string, unsent: string)
    requires inbuf + unsent == text + tail && tail != ""
    ensures |inbuf| > |text| ==>
      var rest := inbuf[|text|..];
      inbuf == text + rest && rest[0] == tail[0] && rest[1..] + unsent == tail[1..]
    ensures |inbuf| <= |text| ==> inbuf <= text && unsent != ""
  {
    var all := inbuf + unsent;
    if |inbuf| > |text| {
      var rest := inbuf[|text|..];
      assert inbuf[..|text|] == all[..|text|] == text;
      assert rest + unsent == all[|text|..] == tail;
      assert rest[1..] + unsent == (rest + unsent)[1..];
    } else {
      assert inbuf == all[..|inbuf|] == text[..|inbuf|];
    }
  }

  lemma TailShape(pairs: seq<Pair>, j: nat, rest: string)
    requires j < |pairs|
    ensures var tail := TailAfter(pairs[j..], rest);
      && PairsText(pairs[j..]) + ";" + rest == PairText(pairs[j]) + tail
      && tail != ""
      && tail[0] == (if j + 1 == |pairs| then ';' else ',')
      && tail[1..] == (if j + 1 == |pairs| then rest else PairsText(pairs[j + 1..]) + ";" + rest)
  {
    NextPair(pairs[j..], rest);
    assert pairs[j..][1..] == pairs[j + 1..];
    var tail := TailAfter(pairs[j..], rest);
    if j + 1 < |pairs| {
      assert tail == [','] + (PairsText(pairs[j + 1..]) + ";" + rest);
    }
  }

  /** The state after an arrived pair is consistent again: between instructions after the last
      pair, one pair further on otherwise. */
  lemma InsideLast(r0: Record, instrs: seq<Instr>, unsent: string, p: Plotter, i: nat, t: Plotter, rest: string)
    requires Program(instrs) && i < |instrs| && instrs[i].Mover?
    requires Consistent(r0, instrs, unsent, p, Inside(i, |instrs[i].pairs| - 1))
    requires rest + unsent == Script(instrs[i + 1..])
    requires t == p.(
      inbuf := rest, mover := None, token := "",
      dev := Touched(PerformAll(r0, instrs[..i]).dev, instrs[i].head, instrs[i].pairs),
      commands := p.commands + [instrs[i].head + PairsText(instrs[i].pairs) + ";"])
    ensures Consistent(r0, instrs, unsent, t, At(i + 1))
  {
    hide Execute, Perform, Touched;
    PerformNext(r0, instrs, i);
    PerformMover(PerformAll(r0, instrs[..i]), instrs[i]);
  }

  lemma InsideMore(r0: Record, instrs: seq<Instr>, unsent: string, p: Plotter, i: nat, j: nat, t: Plotter, rest: string)
    requires Program(instrs) && Consistent(r0, instrs, unsent, p, Inside(i, j)) && j + 1 < |instrs[i].pairs|
    requires PlainPairs(instrs[i].pairs[..j + 1])
    requires rest + unsent == PairsText(instrs[i].pairs[j + 1..]) + ";" + Script(instrs[i + 1..])
    requires t == p.(
      inbuf := rest, token := instrs[i].head + PairsText(instrs[i].pairs[..j + 1]) + ",",
      dev := Touched(PerformAll(r0, instrs[..i]).dev, instrs[i].head, instrs[i].pairs[..j + 1]))
    ensures Consistent(r0, instrs, unsent, t, Inside(i, j + 1))
  {
    hide Execute, Perform, Touched;
  }

  lemma WorkInside(r0: Record, instrs: seq<Instr>, unsent: string, p: Plotter, i: nat, j: nat) returns (g: Progress)
    requires Program(instrs) && Consistent(r0, instrs, unsent, p, Inside(i, j))
    ensures Consistent(r0, instrs, unsent, Work(p), g)
    ensures Work(p) == p || |Work(p).inbuf| < |p.inbuf|
    ensures Work(p) == p ==> unsent != "" && |p.inbuf| < PAIR_WINDOW
  {
    var head, pairs := instrs[i].head, instrs[i].pairs;
    var text := PairText(pairs[j]);
    PlainSlices(pairs, j);
    PlainSlices(pairs, j + 1);
    assert PlainPair(pairs[j]) && |text| < PAIR_WINDOW;
    var after := Script(instrs[i + 1..]);
    TailShape(pairs, j, after);
    CutText(text, TailAfter(pairs[j..], after), p.inbuf, unsent);
    if |p.inbuf| > |text| {
      var rest := p.inbuf[|text|..];
      WorkPair(p, PerformAll(r0, instrs[..i]).dev, head, pairs, j, rest);
      if j + 1 == |pairs| {
        assert pairs[..j + 1] == pairs;
        InsideLast(r0, instrs, unsent, p, i, Work(p), rest[1..]);
        g := At(i + 1);
      } else {
        InsideMore(r0, instrs, unsent, p, i, j, Work(p), rest[1..]);
        g := Inside(i, j + 1);
      }
    } else {
      PopMissingPair(p, pairs[j]);
      g := Inside(i, j);
    }
  }

  /** The terminator of an arrived instruction is found, and the token pops whole. */
  lemma PopWhole(p: Plotter, t: string, rest: string)
    requires p.mover.None? && ';' !in t && p.inbuf == t + ";" + rest
    ensures PopToken(p) == (Some(t + ";"), p.(inbuf := rest))
  {
    FindFirst(t, rest, 0);
    assert p.inbuf[..|t| + 1] == t + ";" && p.inbuf[|t| + 1..] == rest;
  }

  function WithRecord(p: Plotter, r: Record): Plotter {
    p.(dev := r.dev, commands := r.commands, replies := r.replies)
  }

  /** Executing a whole instruction is what the reference does. */
  lemma SettleWhole(p: Plotter, i: Instr)
    requires WellFormed(i)
    ensures Settle(p, TextOf(i) + ";") == WithRecord(p, Perform(RecordOf(p), i))
  {
    if i.Mover? {
      ExecuteMover(p.dev, i.head, i.pairs, TextOf(i) + ";");
    } else {
      CrashIsTextual(PowerUp(A4_CLIP), p.dev, TextOf(i) + ";");
    }
  }

  /** One round on an arrived instruction, in full. */
  lemma WorkArrived(p: Plotter, i: Instr, rest: string)
    requires WellFormed(i) && !p.halted && p.mover.None? && p.inbuf == TextOf(i) + ";" + rest
    ensures Work(p) == WithRecord(p.(inbuf := rest), Perform(RecordOf(p), i))
  {
    TextHasNoTerminator(i);
    PopWhole(p, TextOf(i), rest);
    SettleWhole(p.(inbuf := rest), i);
  }

  /** The same, with the reference's next record named. */
  lemma WorkArrivedAt(r0: Record, instrs: seq<Instr>, p: Plotter, i: nat, rest: string) returns (r: Record)
    requires Program(instrs) && i < |instrs| && RecordOf(p) == PerformAll(r0, instrs[..i])
    requires !p.halted && p.mover.None? && p.inbuf == TextOf(instrs[i]) + ";" + rest
    ensures r == PerformAll(r0, instrs[..i + 1]) && Work(p) == WithRecord(p.(inbuf := rest), r)
  {
    WorkArrived(p, instrs[i], rest);
    PerformNext(r0, instrs, i);
    r := Perform(RecordOf(p), instrs[i]);
  }

  /** An instruction that has fully arrived is executed whole. */
  lemma WorkWhole(r0: Record, instrs: seq<Instr>, unsent: string, p: Plotter, i: nat)
    requires Program(instrs) && Consistent(r0, instrs, unsent, p, At(i))
    requires i < |instrs| && |p.inbuf| > |TextOf(instrs[i])|
    ensures Consistent(r0, instrs, unsent, Work(p), At(i + 1)) && |Work(p).inbuf| < |p.inbuf|
  {
    hide Execute, Perform, Work, TextOf, WellFormed;
    var t := TextOf(instrs[i]);
    ScriptNext(instrs, i);
    CutText(t, ";" + Script(instrs[i + 1..]), p.inbuf, unsent);
    var rest := p.inbuf[|t|..];
    assert rest == ";" + rest[1..] && p.inbuf == t + ";" + rest[1..];
    var r := WorkArrivedAt(r0, instrs, p, i, rest[1..]);
  }

  lemma TextHasNoTerminator(i: Instr)
    requires WellFormed(i)
    ensures ';' !in TextOf(i)
  {
    if i.Mover? {
      PairsTextEnds(i.pairs);
    }
  }

  lemma FindNone(s: string)
    requires ';' !in s
    ensures Find(s, ';', 0, |s|) == -1
  {
    assert s[0..|s|] == s;
  }

  /** A mover's head is recognised from the bytes that have arrived. */
  lemma EnterMover(i: Instr, inbuf: string)
    requires WellFormed(i) && inbuf <= TextOf(i) && |inbuf| > 2 && IsMover(Mnemonic(inbuf))
    ensures i.Mover? && Mnemonic(inbuf) == i.head && inbuf[2..] <= PairsText(i.pairs)
  {
    var t := TextOf(i);
    assert Prefix(inbuf, 2) == Prefix(t, 2);
    if i.Mover? {
      assert Prefix(t, 2) == i.head && Upper(i.head) == i.head;
      assert t[2..] == PairsText(i.pairs);
      assert inbuf[2..] == t[2..][..|inbuf| - 2];
    }
  }

  function Entered(p: Plotter): Plotter
    requires |p.inbuf| > 2
  {
    var head := Mnemonic(p.inbuf);
    p.(mover := Some(head), token := head, inbuf := p.inbuf[2..])
  }

  lemma WorkEnters(p: Plotter)
    requires !p.halted && p.mover.None? && ';' !in p.inbuf && |p.inbuf| > 2 && IsMover(Mnemonic(p.inbuf))
    ensures Work(p) == Work(Entered(p))
  {
    FindNone(p.inbuf);
  }

  lemma WorkWaits(p: Plotter)
    requires p.mover.None? && ';' !in p.inbuf && !(|p.inbuf| > 2 && IsMover(Mnemonic(p.inbuf)))
    ensures Work(p) == p
  {
    FindNone(p.inbuf);
  }

  /** A partly arrived instruction: a mover enters pair-wise execution, anything else waits. */
  lemma WorkPartial(r0: Record, instrs: seq<Instr>, unsent: string, p: Plotter, i: nat) returns (g: Progress)
    requires Program(instrs) && Consistent(r0, instrs, unsent, p, At(i))
    requires i < |instrs| && |p.inbuf| <= |TextOf(instrs[i])|
    ensures Consistent(r0, instrs, unsent, Work(p), g)
    ensures Work(p) == p || |Work(p).inbuf| < |p.inbuf|
    ensures Work(p) == p ==>
      g == At(i) && unsent != "" && (|p.inbuf| <= 2 || (instrs[i].Bare? && |p.inbuf| <= |TextOf(instrs[i])|))
  {
    var t := TextOf(instrs[i]);
    ScriptNext(instrs, i);
    TextHasNoTerminator(instrs[i]);
    CutText(t, ";" + Script(instrs[i + 1..]), p.inbuf, unsent);
    NoTerminatorInPrefix(t, p.inbuf);
    if IsMover(Mnemonic(p.inbuf)) && |p.inbuf| > 2 {
      EnterPairs(r0, instrs, unsent, p, i);
      WorkEnters(p);
      var p1 := Entered(p);
      g := WorkInside(r0, instrs, unsent, p1, i, 0);
    } else {
      WorkWaits(p);
      if instrs[i].Mover? && |p.inbuf| > 2 {
        MoverSeen(instrs[i], p.inbuf);
      }
      g := At(i);
    }
  }

  lemma MoverSeen(i: Instr, inbuf: string)
    requires WellFormed(i) && i.Mover? && inbuf <= TextOf(i) && |inbuf| > 2
    ensures IsMover(Mnemonic(inbuf))
  {
    assert Prefix(inbuf, 2) == i.head && Upper(i.head) == i.head;
  }

  lemma NoTerminatorInPrefix(t: string, s: string)
    requires s <= t && ';' !in t
    ensures ';' !in s
  {
    assert forall k :: 0 <= k < |s| ==> s[k] == t[k];
  }

  lemma EnterBytes(instrs: seq<Instr>, unsent: string, inbuf: string, i: nat)
    requires Program(instrs) && i < |instrs| && inbuf <= TextOf(instrs[i]) && |inbuf| > 2 && IsMover(Mnemonic(inbuf))
    requires inbuf + unsent == Script(instrs[i..])
    ensures instrs[i].Mover? && Mnemonic(inbuf) == instrs[i].head
    ensures inbuf[2..] + unsent == PairsText(instrs[i].pairs) + ";" + Script(instrs[i + 1..])
  {
    assert WellFormed(instrs[i]);
    EnterMover(instrs[i], inbuf);
    ScriptNext(instrs, i);
    DropHead(inbuf, unsent, instrs[i].head, PairsText(instrs[i].pairs), Script(instrs[i + 1..]));
  }

  lemma EnterPairs(r0: Record, instrs: seq<Instr>, unsent: string, p: Plotter, i: nat)
    requires Program(instrs) && Consistent(r0, instrs, unsent, p, At(i))
    requires i < |instrs| && p.inbuf <= TextOf(instrs[i])
    requires IsMover(Mnemonic(p.inbuf)) && |p.inbuf| > 2
    ensures Consistent(r0, instrs, unsent, Entered(p), Inside(i, 0))
  {
    hide Execute, PerformAll, Plain, PairsText;
    EnterBytes(instrs, unsent, p.inbuf, i);
    var pairs := instrs[i].pairs;
    assert pairs[..0] == [] && pairs[0..] == pairs;
  }

  lemma DropHead(inbuf: string, unsent: string, head: string, body: string, after: string)
    requires |head| == 2 && |inbuf| >= 2 && inbuf + unsent == (head + body) + (";" + after)
    ensures inbuf[2..] + unsent == body + ";" + after
  {
    assert inbuf[2..] + unsent == (inbuf + unsent)[2..];
    assert (head + body) + (";" + after) == head + (body + ";" + after);
  }

  // ---- schedules ----------------------------------------------------------------------

  lemma WorkDone(r0: Record, instrs: seq<Instr>, unsent: string, p: Plotter)
    requires Program(instrs) && Consistent(r0, instrs, unsent, p, At(|instrs|))
    ensures Work(p) == p
  {
    assert p.inbuf + unsent == "";
    assert p.inbuf == "";
    WorkWaits(p);
  }

  lemma WorkKeeps(r0: Record, instrs: seq<Instr>, unsent: string, p: Plotter, g: Progress) returns (g': Progress)
    requires Program(instrs) && Consistent(r0, instrs, unsent, p, g)
    ensures Consistent(r0, instrs, unsent, Work(p), g')
    ensures Work(p) == p || |Work(p).inbuf| < |p.inbuf|
    ensures Work(p) == p ==> g' == At(|instrs|) || unsent != ""
    ensures Work(p) == p && g' != At(|instrs|) ==>
      |p.inbuf| < PAIR_WINDOW || (g'.i < |instrs| && instrs[g'.i].Bare? && |p.inbuf| <= |TextOf(instrs[g'.i])|)
  {
    match g {
      case Inside(i, j) => g' := WorkInside(r0, instrs, unsent, p, i, j);
      case At(i) =>
        if i == |instrs| {
          WorkDone(r0, instrs, unsent, p);
          g' := g;
        } else if |p.inbuf| > |TextOf(instrs[i])| {
          WorkWhole(r0, instrs, unsent, p, i);
          g' := At(i + 1);
        } else {
          g' := WorkPartial(r0, instrs, unsent, p, i);
        }
    }
  }

  /** A schedule: arrivals of at most `n` bytes (never more than fit) and executor rounds. */
  datatype Turn = Arrive(n: nat) | Execute1

  function Arrival(p: Plotter, unsent: string, n: nat): (k: nat)
    ensures k <= |unsent| && (k == 0 || |p.inbuf| + k <= INPUT_BUFFER_BYTES)
  {
    var room := if |p.inbuf| < INPUT_BUFFER_BYTES then INPUT_BUFFER_BYTES - |p.inbuf| else 0;
    var k := if n < room then n else room;
    if k < |unsent| then k else |unsent|
  }

  function Play(p: Plotter, unsent: string, turns: seq<Turn>): (Plotter, string)
    decreases |turns|
  {
    if turns == [] then (p, unsent)
    else
      match turns[0]
      case Arrive(n) =>
        var k := Arrival(p, unsent, n);
        Play(Accept(p, unsent[..k]), unsent[k..], turns[1..])
      case Execute1 => Play(Work(p), unsent, turns[1..])
  }

  lemma AcceptFits(p: Plotter, bytes: string)
    requires bytes == "" || |p.inbuf| + |bytes| <= INPUT_BUFFER_BYTES
    ensures Accept(p, bytes) == p.(inbuf := p.inbuf + bytes)
  {
  }

  /** Only the bytes on both sides of the line together matter. */
  lemma SameBytes(r0: Record, instrs: seq<Instr>, unsent: string, p: Plotter, g: Progress, inbuf: string,
      unsent': string)
    requires Program(instrs) && Consistent(r0, instrs, unsent, p, g) && inbuf + unsent' == p.inbuf + unsent
    ensures Consistent(r0, instrs, unsent', p.(inbuf := inbuf), g)
  {
  }

  lemma ArrivalBytes(inbuf: string, unsent: string, k: nat)
    requires k <= |unsent|
    ensures (inbuf + unsent[..k]) + unsent[k..] == inbuf + unsent
  {
    assert unsent[..k] + unsent[k..] == unsent;
  }

  /** Every schedule keeps the run consistent with the reference. */
  lemma {:induction false} PlayKeeps(
    r0: Record, instrs: seq<Instr>, unsent: string, p: Plotter, g: Progress, turns: seq<Turn>) returns (g': Progress)
    requires Program(instrs) && Consistent(r0, instrs, unsent, p, g)
    ensures var (q, left) := Play(p, unsent, turns); Consistent(r0, instrs, left, q, g')
    decreases |turns|
  {
    if turns == [] {
      g' := g;
    } else {
      match turns[0] {
        case Arrive(n) =>
          var k := Arrival(p, unsent, n);
          AcceptFits(p, unsent[..k]);
          ArrivalBytes(p.inbuf, unsent, k);
          SameBytes(r0, instrs, unsent, p, g, p.inbuf + unsent[..k], unsent[k..]);
          g' := PlayKeeps(r0, instrs, unsent[k..], Accept(p, unsent[..k]), g, turns[1..]);
        case Execute1 =>
          var h := WorkKeeps(r0, instrs, unsent, p, g);
          g' := PlayKeeps(r0, instrs, unsent, Work(p), h, turns[1..]);
      }
    }
  }

  ghost predicate Idle(p: Plotter) { p.inbuf == "" && p.mover == None && p.token == "" && !p.halted }

  lemma IdleIsConsistent(p: Plotter, instrs: seq<Instr>)
    requires Program(instrs) && Idle(p)
    ensures Consistent(RecordOf(p), instrs, Script(instrs), p, At(0))
  {
    assert instrs[0..] == instrs && instrs[..0] == [];
  }

  /** Arrival-schedule independence.  Whatever the arrivals and the order of rounds, once all
      bytes have arrived and the executor has nothing left to do, the device, the command log
      and the replies are those of executing every instruction whole, in order. */
  lemma ScheduleIndependence(p: Plotter, instrs: seq<Instr>, turns: seq<Turn>)
    requires Program(instrs) && Idle(p)
    ensures var (q, left) := Play(p, Script(instrs), turns);
      left == "" && Work(q) == q ==> Idle(q) && RecordOf(q) == PerformAll(RecordOf(p), instrs)
  {
    IdleIsConsistent(p, instrs);
    var (q, left) := Play(p, Script(instrs), turns);
    var g := PlayKeeps(RecordOf(p), instrs, Script(instrs), p, At(0), turns);
    if left == "" && Work(q) == q {
      var g' := WorkKeeps(RecordOf(p), instrs, left, q, g);
      assert instrs[..|instrs|] == instrs && instrs[|instrs|..] == [];
    }
  }

  /** The executor never waits for bytes that have no room to arrive. */
  lemma NeverStuck(p: Plotter, instrs: seq<Instr>, turns: seq<Turn>)
    requires Program(instrs) && Idle(p)
    requires forall i :: 0 <= i < |instrs| && instrs[i].Bare? ==> |TextOf(instrs[i])| < INPUT_BUFFER_BYTES
    ensures var (q, left) := Play(p, Script(instrs), turns);
      left != "" && Work(q) == q ==> |q.inbuf| < INPUT_BUFFER_BYTES
  {
    IdleIsConsistent(p, instrs);
    var (q, left) := Play(p, Script(instrs), turns);
    var g := PlayKeeps(RecordOf(p), instrs, Script(instrs), p, At(0), turns);
    if left != "" && Work(q) == q {
      var g' := WorkKeeps(RecordOf(p), instrs, left, q, g);
    }
  }
}
