/** The buffer-safe streamer. */
module Streamer {
  // Poll free space, cut at `;`, write, repeat.  What the port answers and when the user
  // interferes comes from an arbitrary environment; waiting is counted in polls.

  import opened Protocol
  import opened Text
  import opened Chunking

  datatype Config = Config(margin: nat, chunk: nat, retries: nat, stallPolls: nat)

  datatype Signals = Signals(cancel: bool, pause: bool, shutdown: bool)
  datatype Reply = Line(value: int) | NotANumber | Silent | PortLost
  datatype ErrorReply = Code(value: int) | Unreadable
  datatype WriteOutcome = Full | Failed(n: nat) | Lost(n: nat)

  /** The n-th loop head sees `signals(n)`, the n-th space query meets `space(n)`, and so on. */
  datatype Env = Env(
    signals: nat -> Signals, space: nat -> Reply, errors: nat -> ErrorReply, writes: nat -> WriteOutcome)

  /** How much of the environment was consumed, and what reached the line, write by write. */
  datatype Port = Port(heads: nat, asked: nat, checked: nat, wrote: nat, wire: seq<string>)

  datatype Reason =
    | CancelledByUser | PausedByUser | WorkerStopped
    | BufferStayedFull | InstructionTooLong(bytes: nat) | BufferOverflowed | NoSpaceReply | WriteBroke(at: nat)

  datatype Outcome = Sent(bytes: nat) | Interrupted(reason: Reason) | Disconnected

  datatype State = State(port: Port, sent: nat, waited: nat, reported: Option<nat>)

  const FRESH_PORT := Port(0, 0, 0, 0, [])

  function Start(port: Port): State { State(port, 0, 0, None) }

  // ---- the three port operations ------------------------------------------------------

  datatype SpaceResult = Free(bytes: nat) | NoReply | Gone

  function QueryFree(env: Env, port: Port, retriesLeft: nat): (SpaceResult, Port)
    decreases retriesLeft
  {
    var reply := env.space(port.asked);
    var port' := port.(asked := port.asked + 1);
    if reply.Line? && 0 <= reply.value <= INPUT_BUFFER_BYTES then (Free(reply.value), port')
    else if reply.PortLost? then (Gone, port')
    else if retriesLeft == 0 then (NoReply, port')
    else QueryFree(env, port', retriesLeft - 1)
  }

  predicate Usable(r: Reply) { r.Line? && 0 <= r.value <= INPUT_BUFFER_BYTES }

  /** A free-space value is the first usable line within the retry budget, and nothing
      fatal came before it; only free-space queries were consumed. */
  lemma {:induction false} QueryFreeMeaning(env: Env, port: Port, retries: nat)
    ensures var (r, port') := QueryFree(env, port, retries);
      var last := port'.asked - 1;
      && port' == port.(asked := port'.asked)
      && port.asked <= last <= port.asked + retries
      && (forall i :: port.asked <= i < last ==> !Usable(env.space(i)) && env.space(i) != PortLost)
      && (match r
          case Free(v) => env.space(last) == Line(v) && v <= INPUT_BUFFER_BYTES
          case Gone => env.space(last) == PortLost
          case NoReply => last == port.asked + retries && !Usable(env.space(last)) && env.space(last) != PortLost)
    decreases retries
  {
    var reply := env.space(port.asked);
    if !Usable(reply) && !reply.PortLost? && retries != 0 {
      QueryFreeMeaning(env, port.(asked := port.asked + 1), retries - 1);
    }
  }

  function CheckOverflow(env: Env, port: Port): (bool, Port) {
    (env.errors(port.checked) == Code(OVERFLOW_ERROR), port.(checked := port.checked + 1))
  }

  datatype WriteResult = Done | Broke | Vanished

  function Take(data: string, n: nat): string { if n < |data| then data[..n] else data }

  function Write(env: Env, port: Port, data: string): (WriteResult, Port) {
    var port' := port.(wrote := port.wrote + 1);
    match env.writes(port.wrote)
    case Full => (Done, port'.(wire := port.wire + [data]))
    case Failed(n) => (Broke, port'.(wire := port.wire + [Take(data, n)]))
    case Lost(n) => (Vanished, port'.(wire := port.wire + [Take(data, n)]))
  }

  // ---- one pass of the loop -----------------------------------------------------------

  datatype Next = Again(s: State) | Halt(outcome: Outcome, s: State)

  function Min(a: int, b: int): int { if a < b then a else b }

  /** The cut for a reading: the default chunk first, then the whole safe window. */
  function ChooseEnd(cfg: Config, payload: string, sent: nat, free: nat): (end: int)
    requires sent <= |payload|
    requires Min(free - cfg.margin, cfg.chunk) > 0
    ensures end != -1 ==> sent < end <= sent + free - cfg.margin && Boundary(payload, end)
    ensures end == -1 ==> forall e :: sent < e <= sent + free - cfg.margin ==> !Boundary(payload, e)
  {
    var end := SplitChunk(payload, sent, Min(free - cfg.margin, cfg.chunk));
    if end == -1 then SplitChunk(payload, sent, free - cfg.margin) else end
  }

  /** Bytes up to and including the next terminator, or to the end of the payload. */
  function InstructionLength(payload: string, sent: nat): nat
    requires sent <= |payload|
  {
    var next := Find(payload, ';', sent, |payload|);
    (if next != -1 then next + 1 else |payload|) - sent
  }

  /** What follows a usable reading: wait, refuse, or cut and write. */
  function Respond(cfg: Config, env: Env, payload: string, s: State, free: nat): Next
    requires s.sent < |payload|
  {
    var p1 := s.port;
    if Min(free - cfg.margin, cfg.chunk) <= 0 then
      var (overflowed, p2) := CheckOverflow(env, p1);
      var s2 := s.(port := p2);
      if overflowed then Halt(Interrupted(BufferOverflowed), s2)
      else if s.waited >= cfg.stallPolls then Halt(Interrupted(BufferStayedFull), s2)
      else Again(s2.(waited := s.waited + 1))
    else
      var end := ChooseEnd(cfg, payload, s.sent, free);
      if end == -1 then
        var length := InstructionLength(payload, s.sent);
        if length > INPUT_BUFFER_BYTES - cfg.margin then Halt(Interrupted(InstructionTooLong(length)), s)
        else if s.waited >= cfg.stallPolls then Halt(Interrupted(BufferStayedFull), s)
        else
          var (overflowed, p2) := CheckOverflow(env, p1);
          var s2 := s.(port := p2);
          if overflowed then Halt(Interrupted(BufferOverflowed), s2)
          else Again(s2.(waited := s.waited + 1))
      else
        var (written, p2) := Write(env, p1, payload[s.sent..end]);
        var s2 := s.(port := p2, waited := 0);
        match written
        case Vanished => Halt(Disconnected, s2)
        case Broke => Halt(Interrupted(WriteBroke(s.sent)), s2)
        case Done => Again(s2.(sent := end, reported := Some(end)))
  }

  /** What follows the outcome of a free-space query. */
  function Resolve(cfg: Config, env: Env, payload: string, s: State, reading: SpaceResult): Next
    requires s.sent < |payload|
  {
    match reading
    case Gone => Halt(Disconnected, s)
    case NoReply => Halt(Interrupted(NoSpaceReply), s)
    case Free(free) => Respond(cfg, env, payload, s.(reported := Some(s.sent)), free)
  }

  function Pass(cfg: Config, env: Env, payload: string, s: State): Next
    requires s.sent < |payload|
  {
    var signals := env.signals(s.port.heads);
    var p0 := s.port.(heads := s.port.heads + 1);
    if signals.cancel then Halt(Interrupted(CancelledByUser), s.(port := p0))
    else if signals.pause then Halt(Interrupted(PausedByUser), s.(port := p0))
    else if signals.shutdown then Halt(Interrupted(WorkerStopped), s.(port := p0))
    else
      var (reading, p1) := QueryFree(env, p0, cfg.retries);
      Resolve(cfg, env, payload, s.(port := p1), reading)
  }

  /** A cancel before the end closes the dangling instruction, best effort. */
  function Closing(env: Env, payload: string, o: Outcome, s: State): State {
    if o == Interrupted(CancelledByUser) && s.sent < |payload|
    then s.(port := Write(env, s.port, ";").1)
    else s
  }

  /** The whole call from a loop head.  It terminates: each pass sends bytes or uses up a poll. */
  function Run(cfg: Config, env: Env, payload: string, s: State): (Outcome, State)
    requires s.sent <= |payload| && s.waited <= cfg.stallPolls
    decreases |payload| - s.sent, cfg.stallPolls - s.waited
  {
    if s.sent == |payload| then
      var (overflowed, p) := CheckOverflow(env, s.port);
      (if overflowed then Interrupted(BufferOverflowed) else Sent(s.sent), s.(port := p))
    else
      match Pass(cfg, env, payload, s)
      case Again(s') => Run(cfg, env, payload, s')
      case Halt(o, s') => (o, Closing(env, payload, o, s'))
  }

  // ---- exactness ----------------------------------------------------------------------

  /** Every write is a non-empty run of whole instructions. */
  ghost predicate WholeInstructions(writes: seq<string>) {
    forall i :: 0 <= i < |writes| ==> writes[i] != "" && writes[i][|writes[i]| - 1] == ';'
  }

  /** Outcomes after which nothing but complete chunks has been written. */
  predicate Clean(o: Outcome) {
    o.Sent? || (o.Interrupted? && o.reason != CancelledByUser && !o.reason.WriteBroke?)
  }

  /** The writes added between two ports carry exactly `payload[from..to]`, atomically. */
  ghost predicate Carries(before: Port, after: Port, payload: string, from: nat, to: nat)
    requires from <= to <= |payload|
  {
    && before.wire <= after.wire
    && var added := after.wire[|before.wire|..];
    && Concat(added) == payload[from..to]
    && WholeInstructions(added)
  }

  lemma CarriesNothing(before: Port, after: Port, payload: string, at: nat)
    requires at <= |payload| && after.wire == before.wire
    ensures Carries(before, after, payload, at, at)
  {
    assert after.wire[|before.wire|..] == [];
  }

  lemma CarriesOne(before: Port, after: Port, payload: string, from: nat, to: nat)
    requires from < to <= |payload| && Boundary(payload, to)
    requires after.wire == before.wire + [payload[from..to]]
    ensures Carries(before, after, payload, from, to)
  {
    var added := after.wire[|before.wire|..];
    assert added == [payload[from..to]];
    assert added[1..] == [];
  }

  lemma CarriesBoth(a: Port, b: Port, c: Port, payload: string, x: nat, y: nat, z: nat)
    requires x <= y <= z <= |payload|
    requires Carries(a, b, payload, x, y) && Carries(b, c, payload, y, z)
    ensures Carries(a, c, payload, x, z)
  {
    hide Concat;
    var first := b.wire[|a.wire|..];
    var rest := c.wire[|b.wire|..];
    assert c.wire[|a.wire|..] == first + rest;
    ConcatAppend(first, rest);
    assert payload[x..z] == payload[x..y] + payload[y..z];
  }

  /** What a step does to the position, the wire and the progress report. */
  ghost predicate Shaped(payload: string, s: State, next: Next) {
    var t := next.s;
    && s.sent <= t.sent <= |payload|
    && (next.Halt? ==> t.sent == s.sent && !next.outcome.Sent?)
    && (t.sent == s.sent && (next.Again? || Clean(next.outcome)) ==> t.port.wire == s.port.wire)
    && (t.sent > s.sent ==> Boundary(payload, t.sent) && t.port.wire == s.port.wire + [payload[s.sent..t.sent]])
    && (next.Again? ==> t.reported == Some(t.sent))
    && (next.Halt? ==> t.reported == s.reported || t.reported == Some(s.sent))
  }

  lemma WaitShape(cfg: Config, env: Env, payload: string, s: State, free: nat)
    requires s.sent < |payload| && s.reported == Some(s.sent) && Min(free - cfg.margin, cfg.chunk) <= 0
    ensures Shaped(payload, s, Respond(cfg, env, payload, s, free))
  {
  }

  lemma StuckShape(cfg: Config, env: Env, payload: string, s: State, free: nat)
    requires s.sent < |payload| && s.reported == Some(s.sent) && Min(free - cfg.margin, cfg.chunk) > 0
    requires ChooseEnd(cfg, payload, s.sent, free) == -1
    ensures Shaped(payload, s, Respond(cfg, env, payload, s, free))
  {
  }

  lemma WriteShape(cfg: Config, env: Env, payload: string, s: State, free: nat)
    requires s.sent < |payload| && s.reported == Some(s.sent) && Min(free - cfg.margin, cfg.chunk) > 0
    requires ChooseEnd(cfg, payload, s.sent, free) != -1
    ensures Shaped(payload, s, Respond(cfg, env, payload, s, free))
  {
  }

  lemma RespondShape(cfg: Config, env: Env, payload: string, s: State, free: nat)
    requires s.sent < |payload| && s.reported == Some(s.sent)
    ensures Shaped(payload, s, Respond(cfg, env, payload, s, free))
  {
    if Min(free - cfg.margin, cfg.chunk) <= 0 {
      WaitShape(cfg, env, payload, s, free);
    } else if ChooseEnd(cfg, payload, s.sent, free) == -1 {
      StuckShape(cfg, env, payload, s, free);
    } else {
      WriteShape(cfg, env, payload, s, free);
    }
  }

  lemma ResolveShape(cfg: Config, env: Env, payload: string, s: State, t: State, reading: SpaceResult)
    requires s.sent < |payload| && t == s.(port := t.port) && t.port.wire == s.port.wire
    ensures Shaped(payload, s, Resolve(cfg, env, payload, t, reading))
  {
    if reading.Free? {
      RespondShape(cfg, env, payload, t.(reported := Some(s.sent)), reading.bytes);
    }
  }

  lemma {:induction false} QueryFreeWritesNothing(env: Env, port: Port, retries: nat)
    ensures QueryFree(env, port, retries).1.wire == port.wire
    decreases retries
  {
    if retries != 0 {
      QueryFreeWritesNothing(env, port.(asked := port.asked + 1), retries - 1);
    }
  }

  lemma HaltShape(payload: string, s: State, port: Port, o: Outcome)
    requires s.sent < |payload| && port.wire == s.port.wire && !o.Sent?
    ensures Shaped(payload, s, Halt(o, s.(port := port)))
  {
  }

  lemma PassShape(cfg: Config, env: Env, payload: string, s: State)
    requires s.sent < |payload|
    ensures Shaped(payload, s, Pass(cfg, env, payload, s))
  {
    hide Shaped, QueryFree, Resolve;
    var p0 := s.port.(heads := s.port.heads + 1);
    var signals := env.signals(s.port.heads);
    if signals.cancel {
      HaltShape(payload, s, p0, Interrupted(CancelledByUser));
    } else if signals.pause {
      HaltShape(payload, s, p0, Interrupted(PausedByUser));
    } else if signals.shutdown {
      HaltShape(payload, s, p0, Interrupted(WorkerStopped));
    } else {
      var (reading, p1) := QueryFree(env, p0, cfg.retries);
      QueryFreeWritesNothing(env, p0, cfg.retries);
      ResolveShape(cfg, env, payload, s, s.(port := p1), reading);
    }
  }

  lemma PassCarries(cfg: Config, env: Env, payload: string, s: State)
    requires s.sent < |payload|
    ensures var next := Pass(cfg, env, payload, s);
      && s.sent <= next.s.sent <= |payload|
      && (next.Again? || Clean(next.outcome) ==> Carries(s.port, next.s.port, payload, s.sent, next.s.sent))
  {
    PassShape(cfg, env, payload, s);
    var next := Pass(cfg, env, payload, s);
    if next.s.sent > s.sent {
      CarriesOne(s.port, next.s.port, payload, s.sent, next.s.sent);
    } else if next.Again? || Clean(next.outcome) {
      CarriesNothing(s.port, next.s.port, payload, s.sent);
    }
  }

  ghost predicate RunShaped(payload: string, s: State, o: Outcome, s': State) {
    && s.sent <= s'.sent <= |payload|
    && (s'.sent == s.sent || Boundary(payload, s'.sent))
    && ((s'.reported == s.reported && s'.sent == s.sent) || s'.reported == Some(s'.sent))
    && (o.Sent? ==> o.bytes == s'.sent == |payload|)
  }

  lemma ShapedThen(payload: string, s: State, next: Next, o: Outcome, s': State)
    requires Shaped(payload, s, next)
    requires if next.Again? then RunShaped(payload, next.s, o, s')
             else o == next.outcome && s'.sent == next.s.sent && s'.reported == next.s.reported
    ensures RunShaped(payload, s, o, s')
  {
  }

  lemma RunUnfolds(cfg: Config, env: Env, payload: string, s: State)
    requires s.sent < |payload| && s.waited <= cfg.stallPolls
    ensures var next := Pass(cfg, env, payload, s);
      && (next.Again? ==> s.sent <= next.s.sent <= |payload| && next.s.waited <= cfg.stallPolls)
      && (next.Again? ==> next.s.sent > s.sent || next.s.waited > s.waited)
      && Run(cfg, env, payload, s) ==
         (if next.Again? then Run(cfg, env, payload, next.s)
          else (next.outcome, Closing(env, payload, next.outcome, next.s)))
  {
    PassShape(cfg, env, payload, s);
  }

  lemma {:induction false} RunShape(cfg: Config, env: Env, payload: string, s: State)
    requires s.sent <= |payload| && s.waited <= cfg.stallPolls
    ensures var (o, s') := Run(cfg, env, payload, s); RunShaped(payload, s, o, s')
    decreases |payload| - s.sent, cfg.stallPolls - s.waited
  {
    if s.sent < |payload| {
      var next := Pass(cfg, env, payload, s);
      var (o, s') := Run(cfg, env, payload, s);
      PassShape(cfg, env, payload, s);
      RunUnfolds(cfg, env, payload, s);
      if next.Again? {
        RunShape(cfg, env, payload, next.s);
      }
      ShapedThen(payload, s, next, o, s');
    }
  }

  lemma CarriesOn(payload: string, s: State, next: Next, o: Outcome, s': State)
    requires next.Again? && s.sent <= next.s.sent <= s'.sent <= |payload| && Clean(o)
    requires Carries(s.port, next.s.port, payload, s.sent, next.s.sent)
    requires Carries(next.s.port, s'.port, payload, next.s.sent, s'.sent)
    ensures Carries(s.port, s'.port, payload, s.sent, s'.sent)
  {
    CarriesBoth(s.port, next.s.port, s'.port, payload, s.sent, next.s.sent, s'.sent);
  }

  lemma {:induction false} RunCarries(cfg: Config, env: Env, payload: string, s: State)
    requires s.sent <= |payload| && s.waited <= cfg.stallPolls
    ensures var (o, s') := Run(cfg, env, payload, s);
      && s.sent <= s'.sent <= |payload|
      && (Clean(o) ==> Carries(s.port, s'.port, payload, s.sent, s'.sent))
    decreases |payload| - s.sent, cfg.stallPolls - s.waited
  {
    var (o, s') := Run(cfg, env, payload, s);
    if s.sent == |payload| {
      CarriesNothing(s.port, s'.port, payload, s.sent);
    } else {
      PassCarries(cfg, env, payload, s);
      RunUnfolds(cfg, env, payload, s);
      var next := Pass(cfg, env, payload, s);
      if next.Again? {
        RunCarries(cfg, env, payload, next.s);
        if Clean(o) {
          CarriesOn(payload, s, next, o, s');
        }
      }
    }
  }

  /** At each loop head the writes so far are exactly the payload's first `sent` bytes, cut at
      terminators; a normal return means everything went out and the payload was terminated. */
  lemma RunExact(cfg: Config, env: Env, payload: string, port: Port)
    ensures var (o, s') := Run(cfg, env, payload, Start(port));
      && s'.sent <= |payload|
      && (Clean(o) ==> Carries(port, s'.port, payload, 0, s'.sent))
      && (s'.sent == 0 || Boundary(payload, s'.sent))
      && (if s'.reported.Some? then s'.reported.value == s'.sent else s'.sent == 0)
      && (o.Sent? ==> o.bytes == s'.sent == |payload| && (payload == "" || Boundary(payload, |payload|)))
  {
    RunShape(cfg, env, payload, Start(port));
    RunCarries(cfg, env, payload, Start(port));
  }

  /** A payload with anything after its last terminator is never streamed successfully. */
  lemma UnterminatedNeverCompletes(cfg: Config, env: Env, payload: string, port: Port)
    requires payload != "" && payload[|payload| - 1] != ';'
    ensures !Run(cfg, env, payload, Start(port)).0.Sent?
  {
    RunExact(cfg, env, payload, port);
  }

  // ---- the error register -------------------------------------------------------------

  /** Among the error queries `first..last`, error 16 is the answer to the last one if that one
      stopped the stream, and to no other. */
  ghost predicate Watched(env: Env, first: nat, stopped: bool, last: nat) {
    && first <= last
    && (stopped ==> first < last)
    && forall i :: first <= i < last ==> (env.errors(i) == Code(OVERFLOW_ERROR) <==> stopped && i == last - 1)
  }

  predicate Overflowed(o: Outcome) { o == Interrupted(BufferOverflowed) }

  lemma RespondWatched(cfg: Config, env: Env, payload: string, s: State, free: nat)
    requires s.sent < |payload|
    ensures var next := Respond(cfg, env, payload, s, free);
      Watched(env, s.port.checked, next.Halt? && Overflowed(next.outcome), next.s.port.checked)
  {
    hide SplitChunk, Find, Concat;
  }

  lemma PassWatched(cfg: Config, env: Env, payload: string, s: State)
    requires s.sent < |payload|
    ensures var next := Pass(cfg, env, payload, s);
      Watched(env, s.port.checked, next.Halt? && Overflowed(next.outcome), next.s.port.checked)
  {
    hide Respond, QueryFree;
    var p0 := s.port.(heads := s.port.heads + 1);
    QueryFreeMeaning(env, p0, cfg.retries);
    var (reading, p1) := QueryFree(env, p0, cfg.retries);
    if reading.Free? {
      RespondWatched(cfg, env, payload, s.(port := p1, reported := Some(s.sent)), reading.bytes);
    }
  }

  lemma WatchedOn(env: Env, a: nat, b: nat, stopped: bool, c: nat)
    requires Watched(env, a, false, b) && Watched(env, b, stopped, c)
    ensures Watched(env, a, stopped, c)
  {
  }

  /** Over the whole call: the stream stops for an overflow exactly when the error query just made
      answered 16, no earlier query had, and a normal return has looked after the last byte. */
  lemma {:induction false} OverflowStopsExactly(cfg: Config, env: Env, payload: string, s: State)
    requires s.sent <= |payload| && s.waited <= cfg.stallPolls
    ensures var (o, s') := Run(cfg, env, payload, s);
      && Watched(env, s.port.checked, Overflowed(o), s'.port.checked)
      && (o.Sent? ==> s.port.checked < s'.port.checked)
    decreases |payload| - s.sent, cfg.stallPolls - s.waited
  {
    hide Pass;
    if s.sent < |payload| {
      RunUnfolds(cfg, env, payload, s);
      PassWatched(cfg, env, payload, s);
      PassShape(cfg, env, payload, s);
      var next := Pass(cfg, env, payload, s);
      if next.Again? {
        OverflowStopsExactly(cfg, env, payload, next.s);
        var (o, s') := Run(cfg, env, payload, s);
        WatchedOn(env, s.port.checked, next.s.port.checked, Overflowed(o), s'.port.checked);
      }
    }
  }

  // ---- why a call ends ----------------------------------------------------------------

  /** Nobody has asked to stop. */
  predicate Quiet(s: Signals) { !s.cancel && !s.pause && !s.shutdown }

  /** What the user's signals at a loop head have to do with the outcome: a cancel goes before a
      pause, a pause before a shutdown, and nothing else ends a call in these ways. */
  predicate Obeyed(o: Outcome, signals: Signals) {
    && (o == Interrupted(CancelledByUser) <==> signals.cancel)
    && (o == Interrupted(PausedByUser) <==> signals.pause && !signals.cancel)
    && (o == Interrupted(WorkerStopped) <==> signals.shutdown && !signals.cancel && !signals.pause)
  }

  /** The reading shows no room for the next instruction, which would fit the safe window if the
      reading leaves anything above the margin. */
  ghost predicate Cramped(cfg: Config, payload: string, sent: nat, free: int)
    requires sent <= |payload|
  {
    && (forall e :: sent < e <= sent + free - cfg.margin ==> !Boundary(payload, e))
    && (free > cfg.margin ==> InstructionLength(payload, sent) + cfg.margin <= INPUT_BUFFER_BYTES)
  }

  /** How many of these space replies could be used. */
  function UsableReplies(env: Env, first: nat, last: nat): nat
    requires first <= last
    decreases last - first
  {
    if first == last then 0 else UsableReplies(env, first, last - 1) + if Usable(env.space(last - 1)) then 1 else 0
  }

  /** Since reply `since` every usable reading was too small, and each has been waited for. */
  ghost predicate Waiting(cfg: Config, env: Env, payload: string, s: State, since: nat)
    requires s.sent <= |payload|
  {
    && since <= s.port.asked && UsableReplies(env, since, s.port.asked) == s.waited
    && (forall i :: since <= i < s.port.asked && Usable(env.space(i)) ==>
          Cramped(cfg, payload, s.sent, env.space(i).value))
  }

  /** What the environment did to end a call in this way, seen from the state it ended in. */
  ghost predicate Explained(cfg: Config, env: Env, payload: string, o: Outcome, s: State, since: nat)
    requires s.sent <= |payload|
  {
    match o
    case Sent(bytes) => bytes == s.sent == |payload|
    case Disconnected =>
      || (s.port.asked > 0 && env.space(s.port.asked - 1).PortLost?)
      || (s.port.wrote > 0 && env.writes(s.port.wrote - 1).Lost?)
    case Interrupted(WriteBroke(at)) => at == s.sent && s.port.wrote > 0 && env.writes(s.port.wrote - 1).Failed?
    case Interrupted(NoSpaceReply) =>
      && s.port.asked > cfg.retries
      && forall i: nat :: s.port.asked - 1 - cfg.retries <= i < s.port.asked ==>
           !Usable(env.space(i)) && env.space(i) != PortLost
    case Interrupted(InstructionTooLong(bytes)) =>
      bytes == InstructionLength(payload, s.sent) && bytes + cfg.margin > INPUT_BUFFER_BYTES
    case Interrupted(BufferStayedFull) =>
      since <= s.port.asked && UsableReplies(env, since, s.port.asked) == cfg.stallPolls + 1
      && forall i :: since <= i < s.port.asked && Usable(env.space(i)) ==>
           Cramped(cfg, payload, s.sent, env.space(i).value)
    case _ => true
  }

  lemma {:induction false} UnusableSkip(env: Env, a: nat, b: nat, c: nat)
    requires a <= b <= c && forall i :: b <= i < c ==> !Usable(env.space(i))
    ensures UsableReplies(env, a, c) == UsableReplies(env, a, b)
    decreases c - b
  {
    if b < c {
      UnusableSkip(env, a, b, c - 1);
    }
  }

  /** Responding to a reading uses no head and no space reply, and obeys no signal. */
  lemma RespondSignals(cfg: Config, env: Env, payload: string, s: State, free: nat)
    requires s.sent < |payload|
    ensures var next := Respond(cfg, env, payload, s, free);
      && next.s.port.heads == s.port.heads && next.s.port.asked == s.port.asked
      && (next.Halt? ==> Obeyed(next.outcome, Signals(false, false, false)))
  {
    hide SplitChunk, Find;
  }

  lemma PassSignals(cfg: Config, env: Env, payload: string, s: State)
    requires s.sent < |payload|
    ensures var next := Pass(cfg, env, payload, s);
      && next.s.port.heads == s.port.heads + 1
      && (if next.Again? then Quiet(env.signals(s.port.heads)) else Obeyed(next.outcome, env.signals(s.port.heads)))
  {
    hide Respond, QueryFree;
    var p0 := s.port.(heads := s.port.heads + 1);
    QueryFreeMeaning(env, p0, cfg.retries);
    var (reading, p1) := QueryFree(env, p0, cfg.retries);
    if reading.Free? {
      RespondSignals(cfg, env, payload, s.(port := p1, reported := Some(s.sent)), reading.bytes);
    }
  }

  /** The user's signals decide, for every environment: as long as no signal is up at a loop head
      the stream goes on; the first one that is ends the call, a cancel before a pause before a
      shutdown; and no call ends in these ways without it. */
  lemma {:induction false} SignalsDecide(cfg: Config, env: Env, payload: string, s: State)
    requires s.sent <= |payload| && s.waited <= cfg.stallPolls
    ensures var (o, s') := Run(cfg, env, payload, s);
      var first, last := s.port.heads, s'.port.heads - 1;
      && (s.sent < |payload| ==> first <= last)
      && first <= last + 1
      && (forall i :: first <= i < last ==> Quiet(env.signals(i)))
      && Obeyed(o, if first <= last then env.signals(last) else Signals(false, false, false))
    decreases |payload| - s.sent, cfg.stallPolls - s.waited
  {
    hide Pass;
    if s.sent < |payload| {
      RunUnfolds(cfg, env, payload, s);
      PassSignals(cfg, env, payload, s);
      var next := Pass(cfg, env, payload, s);
      if next.Again? {
        SignalsDecide(cfg, env, payload, next.s);
      }
    }
  }

  lemma RespondExplained(cfg: Config, env: Env, payload: string, s: State, free: nat, since: nat)
    requires s.sent < |payload| && s.waited <= cfg.stallPolls && cfg.chunk > 0
    requires since < s.port.asked && UsableReplies(env, since, s.port.asked) == s.waited + 1
    requires forall i :: since <= i < s.port.asked - 1 && Usable(env.space(i)) ==>
      Cramped(cfg, payload, s.sent, env.space(i).value)
    requires env.space(s.port.asked - 1) == Line(free) && free <= INPUT_BUFFER_BYTES
    ensures var next := Respond(cfg, env, payload, s, free);
      if next.Again? then Waiting(cfg, env, payload, next.s, if next.s.sent > s.sent then next.s.port.asked else since)
      else Explained(cfg, env, payload, next.outcome, next.s, since)
  {
    hide SplitChunk, InstructionLength, Boundary;
  }

  lemma PassExplained(cfg: Config, env: Env, payload: string, s: State, since: nat)
    requires s.sent < |payload| && s.waited <= cfg.stallPolls && cfg.chunk > 0 && Waiting(cfg, env, payload, s, since)
    ensures var next := Pass(cfg, env, payload, s);
      if next.Again? then Waiting(cfg, env, payload, next.s, if next.s.sent > s.sent then next.s.port.asked else since)
      else Explained(cfg, env, payload, next.outcome, next.s, since)
  {
    hide Respond, QueryFree, Cramped, InstructionLength;
    var p0 := s.port.(heads := s.port.heads + 1);
    QueryFreeMeaning(env, p0, cfg.retries);
    var (reading, p1) := QueryFree(env, p0, cfg.retries);
    if reading.Free? {
      UnusableSkip(env, since, s.port.asked, p1.asked - 1);
      RespondExplained(cfg, env, payload, s.(port := p1, reported := Some(s.sent)), reading.bytes, since);
    }
  }

  /** Every other way to end, from the replies alone: the port was lost at the last space reply or
      write; a failed write names the byte; the retry budget was used up by unusable replies; the
      next instruction is too long for the safe window; or the stall budget was used up by
      readings that had no room for it. */
  lemma {:induction false} OutcomeExplained(cfg: Config, env: Env, payload: string, s: State, since: nat)
    returns (since': nat)
    requires s.sent <= |payload| && s.waited <= cfg.stallPolls && cfg.chunk > 0 && Waiting(cfg, env, payload, s, since)
    ensures var (o, s') := Run(cfg, env, payload, s);
      s'.sent <= |payload| && Explained(cfg, env, payload, o, s', since')
    decreases |payload| - s.sent, cfg.stallPolls - s.waited
  {
    hide Pass, Waiting, InstructionLength;
    since' := since;
    if s.sent < |payload| {
      RunUnfolds(cfg, env, payload, s);
      PassExplained(cfg, env, payload, s, since);
      PassShape(cfg, env, payload, s);
      var next := Pass(cfg, env, payload, s);
      if next.Again? {
        since' := OutcomeExplained(cfg, env, payload, next.s,
                                   if next.s.sent > s.sent then next.s.port.asked else since);
      }
    }
  }

  // ---- what is on the line, whatever happened -------------------------------------------

  /** How many of `size` bytes a write brings to the line. */
  function Delivered(w: WriteOutcome, size: nat): nat {
    match w
    case Full => size
    case Failed(n) => if n < size then n else size
    case Lost(n) => if n < size then n else size
  }

  /** What the call has put on the line is a prefix of what was to be sent; only after a cancel the
      closing terminator follows, as far as its write got. */
  ghost predicate OnLine(env: Env, before: Port, payload: string, sent: nat, o: Outcome, s: State)
    requires sent <= s.sent <= |payload|
  {
    && before.wire <= s.port.wire
    && var line := Concat(s.port.wire[|before.wire|..]);
    if o == Interrupted(CancelledByUser) then
      && s.port.wrote > 0
      && line == payload[sent..s.sent] + ";"[..Delivered(env.writes(s.port.wrote - 1), 1)]
    else line <= payload[sent..] && s.sent - sent <= |line|
  }

  lemma NothingMore(a: Port, b: Port)
    requires a.wire == b.wire
    ensures a.wire <= b.wire && Concat(b.wire[|a.wire|..]) == ""
  {
    assert b.wire[|a.wire|..] == [];
  }

  lemma OneMore(a: Port, b: Port, x: string)
    requires b.wire == a.wire + [x]
    ensures a.wire <= b.wire && Concat(b.wire[|a.wire|..]) == x
  {
    var added := b.wire[|a.wire|..];
    assert added == [x] && added[1..] == [];
    assert x + "" == x;
  }

  lemma WriteDelivers(env: Env, port: Port, data: string)
    ensures Write(env, port, data).1.wire == port.wire + [data[..Delivered(env.writes(port.wrote), |data|)]]
    ensures Write(env, port, data).1.wrote == port.wrote + 1
  {
    assert data[..|data|] == data;
  }

  /** A pass that ends the call has written nothing, or the part of a chunk that got through. */
  lemma RespondLine(cfg: Config, env: Env, payload: string, s: State, free: nat)
    requires s.sent < |payload|
    ensures var next := Respond(cfg, env, payload, s, free);
      next.Halt? ==>
        && next.s.sent == s.sent && next.outcome != Interrupted(CancelledByUser)
        && (next.s.port.wire == s.port.wire ||
            exists x :: x <= payload[s.sent..] && next.s.port.wire == s.port.wire + [x])
  {
    hide SplitChunk, InstructionLength;
    var next := Respond(cfg, env, payload, s, free);
    if next.Halt? && next.s.port.wire != s.port.wire {
      var end := ChooseEnd(cfg, payload, s.sent, free);
      var chunk := payload[s.sent..end];
      var x := chunk[..Delivered(env.writes(s.port.wrote), |chunk|)];
      WriteDelivers(env, s.port, chunk);
      assert x <= payload[s.sent..];
      assert next.s.port.wire == s.port.wire + [x];
    }
  }

  lemma PassLine(cfg: Config, env: Env, payload: string, s: State)
    requires s.sent < |payload|
    ensures var next := Pass(cfg, env, payload, s);
      next.Halt? ==>
        && next.s.sent == s.sent
        && (next.s.port.wire == s.port.wire ||
            (next.outcome != Interrupted(CancelledByUser) &&
             exists x :: x <= payload[s.sent..] && next.s.port.wire == s.port.wire + [x]))
  {
    hide Respond, QueryFree;
    var p0 := s.port.(heads := s.port.heads + 1);
    QueryFreeMeaning(env, p0, cfg.retries);
    var (reading, p1) := QueryFree(env, p0, cfg.retries);
    if reading.Free? {
      RespondLine(cfg, env, payload, s.(port := p1, reported := Some(s.sent)), reading.bytes);
    }
  }

  /** The end of a call that halts in this pass. */
  lemma HaltOnLine(cfg: Config, env: Env, payload: string, s: State)
    requires s.sent < |payload| && Pass(cfg, env, payload, s).Halt?
    ensures var next := Pass(cfg, env, payload, s);
      next.s.sent == s.sent
      && OnLine(env, s.port, payload, s.sent, next.outcome, Closing(env, payload, next.outcome, next.s))
  {
    hide Pass, Concat;
    PassLine(cfg, env, payload, s);
    var next := Pass(cfg, env, payload, s);
    var end := Closing(env, payload, next.outcome, next.s);
    assert payload[s.sent..s.sent] == "";
    if next.outcome == Interrupted(CancelledByUser) {
      var x := ";"[..Delivered(env.writes(next.s.port.wrote), 1)];
      WriteDelivers(env, next.s.port, ";");
      assert end.port.wire == s.port.wire + [x];
      OneMore(s.port, end.port, x);
      assert "" + x == x;
    } else if next.s.port.wire == s.port.wire {
      NothingMore(s.port, end.port);
    } else {
      var x :| x <= payload[s.sent..] && next.s.port.wire == s.port.wire + [x];
      OneMore(s.port, end.port, x);
    }
  }

  lemma OnLineAfter(env: Env, payload: string, a: Port, b: Port, x: nat, y: nat, o: Outcome, s: State)
    requires x <= y <= s.sent <= |payload| && Carries(a, b, payload, x, y) && OnLine(env, b, payload, y, o, s)
    ensures OnLine(env, a, payload, x, o, s)
  {
    hide Concat, WholeInstructions, Delivered;
    var first := b.wire[|a.wire|..];
    var rest := s.port.wire[|b.wire|..];
    assert s.port.wire[|a.wire|..] == first + rest;
    ConcatAppend(first, rest);
    assert payload[x..] == payload[x..y] + payload[y..];
    assert payload[x..s.sent] == payload[x..y] + payload[y..s.sent];
  }

  /** For every environment and every outcome. */
  lemma {:induction false} LineIsPrefix(cfg: Config, env: Env, payload: string, s: State)
    requires s.sent <= |payload| && s.waited <= cfg.stallPolls
    ensures var (o, s') := Run(cfg, env, payload, s);
      s.sent <= s'.sent <= |payload| && OnLine(env, s.port, payload, s.sent, o, s')
    decreases |payload| - s.sent, cfg.stallPolls - s.waited
  {
    hide Pass, OnLine, Concat;
    var (o, s') := Run(cfg, env, payload, s);
    if s.sent == |payload| {
      SentOnLine(env, payload, s, o, s');
    } else {
      RunUnfolds(cfg, env, payload, s);
      var next := Pass(cfg, env, payload, s);
      if next.Again? {
        PassCarries(cfg, env, payload, s);
        LineIsPrefix(cfg, env, payload, next.s);
        OnLineAfter(env, payload, s.port, next.s.port, s.sent, next.s.sent, o, s');
      } else {
        HaltOnLine(cfg, env, payload, s);
      }
    }
  }

  lemma SentOnLine(env: Env, payload: string, s: State, o: Outcome, s': State)
    requires s.sent == s'.sent == |payload| && s'.port.wire == s.port.wire && o != Interrupted(CancelledByUser)
    ensures OnLine(env, s.port, payload, s.sent, o, s')
  {
    NothingMore(s.port, s'.port);
  }

  // ---- liveness -----------------------------------------------------------------------

  /** From every instruction start a terminator follows within `bound` bytes. */
  ghost predicate InstructionsWithin(payload: string, bound: nat) {
    forall i :: 0 <= i < |payload| && (i == 0 || Boundary(payload, i)) ==>
      InstructionLength(payload, i) <= bound && Boundary(payload, i + InstructionLength(payload, i))
  }

  /** Nobody interferes and nothing on the port fails. */
  ghost predicate Undisturbed(env: Env) {
    && (forall n :: env.signals(n) == Signals(false, false, false))
    && (forall n :: Usable(env.space(n)))
    && (forall n :: env.errors(n) != Code(OVERFLOW_ERROR))
    && (forall n :: env.writes(n) == Full)
  }

  /** Any run of `stallPolls + 1` readings contains one with `need` bytes free. */
  ghost predicate DrainsInTime(cfg: Config, env: Env, need: nat) {
    forall q: nat :: FreesWithin(cfg, env, q, need)
  }

  ghost predicate FreesWithin(cfg: Config, env: Env, q: nat, need: nat) {
    exists j: nat :: q <= j <= q + cfg.stallPolls && Roomy(env, j, need)
  }

  ghost predicate Roomy(env: Env, j: nat, need: nat) {
    env.space(j).Line? && env.space(j).value >= need
  }

  predicate Oversize(next: Next) { next.Halt? && next.outcome.Interrupted? && next.outcome.reason.InstructionTooLong? }

  /** The oversize failure needs an instruction longer than the safe window. */
  lemma RespondOversize(cfg: Config, env: Env, payload: string, s: State, free: nat)
    requires s.sent < |payload| && InstructionLength(payload, s.sent) + cfg.margin <= INPUT_BUFFER_BYTES
    ensures !Oversize(Respond(cfg, env, payload, s, free))
  {
  }

  lemma OversizeNeedsLongInstruction(cfg: Config, env: Env, payload: string, s: State, bound: nat)
    requires s.sent < |payload| && (s.sent == 0 || Boundary(payload, s.sent))
    requires InstructionsWithin(payload, bound)
    requires bound + cfg.margin <= INPUT_BUFFER_BYTES
    ensures !Oversize(Pass(cfg, env, payload, s))
  {
    assert InstructionLength(payload, s.sent) <= bound;
    var p0 := s.port.(heads := s.port.heads + 1);
    var (reading, p1) := QueryFree(env, p0, cfg.retries);
    if reading.Free? {
      RespondOversize(cfg, env, payload, s.(port := p1, reported := Some(s.sent)), reading.bytes);
    }
  }

  lemma PassProgress(cfg: Config, env: Env, payload: string, s: State)
    requires s.sent < |payload| && s.waited <= cfg.stallPolls && (s.sent == 0 || Boundary(payload, s.sent))
    ensures var next := Pass(cfg, env, payload, s);
      next.Again? ==>
        && s.sent <= next.s.sent <= |payload| && next.s.waited <= cfg.stallPolls
        && (next.s.sent == 0 || Boundary(payload, next.s.sent))
        && (next.s.sent > s.sent || next.s.waited > s.waited)
  {
    PassShape(cfg, env, payload, s);
  }

  lemma {:induction false} NeverTooLong(cfg: Config, env: Env, payload: string, s: State, bound: nat)
    requires s.sent <= |payload| && s.waited <= cfg.stallPolls
    requires s.sent == 0 || Boundary(payload, s.sent)
    requires InstructionsWithin(payload, bound)
    requires bound + cfg.margin <= INPUT_BUFFER_BYTES
    ensures var o := Run(cfg, env, payload, s).0; !(o.Interrupted? && o.reason.InstructionTooLong?)
    decreases |payload| - s.sent, cfg.stallPolls - s.waited
  {
    if s.sent < |payload| {
      OversizeNeedsLongInstruction(cfg, env, payload, s, bound);
      PassProgress(cfg, env, payload, s);
      var next := Pass(cfg, env, payload, s);
      if next.Again? {
        NeverTooLong(cfg, env, payload, next.s, bound);
      }
    }
  }

  /** One undisturbed pass either sends, or meets a reading too small for one instruction. */
  lemma UndisturbedPass(cfg: Config, env: Env, payload: string, s: State, bound: nat)
    requires s.sent < |payload| && (s.sent == 0 || Boundary(payload, s.sent))
    requires InstructionsWithin(payload, bound) && bound + cfg.margin <= INPUT_BUFFER_BYTES
    requires cfg.chunk > 0 && Undisturbed(env)
    ensures var next := Pass(cfg, env, payload, s);
      var roomy := Roomy(env, s.port.asked, cfg.margin + bound);
      && (roomy ==> next.Again? && next.s.sent > s.sent)
      && (next.Again? ==> next.s.port.asked == s.port.asked + 1)
      && (next.Again? && next.s.sent > s.sent ==> next.s.waited == 0)
      && (next.Again? && next.s.sent == s.sent ==> next.s.waited == s.waited + 1)
      && (next.Halt? ==> s.waited >= cfg.stallPolls)
  {
    var p0 := s.port.(heads := s.port.heads + 1);
    var reading := env.space(p0.asked);
    assert Usable(reading);
    assert QueryFree(env, p0, cfg.retries).0 == Free(reading.value);
    assert env.signals(s.port.heads) == Signals(false, false, false);
    var length := InstructionLength(payload, s.sent);
    assert Boundary(payload, s.sent + length) && length <= bound;
    assert env.errors(p0.checked) != Code(OVERFLOW_ERROR);
    assert env.writes(p0.wrote) == Full;
  }

  /** No reading since the last write had room. */
  ghost predicate Starved(env: Env, s: State, need: nat) {
    forall j: nat :: s.port.asked - s.waited <= j < s.port.asked ==> !Roomy(env, j, need)
  }

  /** One undisturbed pass goes on, and either sends or is starved once more. */
  lemma UndisturbedStep(cfg: Config, env: Env, payload: string, s: State, bound: nat, need: nat)
    requires s.sent < |payload| && s.waited <= cfg.stallPolls && s.waited <= s.port.asked
    requires s.sent == 0 || Boundary(payload, s.sent)
    requires InstructionsWithin(payload, bound) && need == bound + cfg.margin <= INPUT_BUFFER_BYTES
    requires cfg.chunk > 0 && Undisturbed(env) && DrainsInTime(cfg, env, need) && Starved(env, s, need)
    ensures var next := Pass(cfg, env, payload, s);
      && next.Again?
      && s.sent <= next.s.sent <= |payload| && (next.s.sent == 0 || Boundary(payload, next.s.sent))
      && next.s.waited <= cfg.stallPolls && next.s.waited <= next.s.port.asked
      && (next.s.sent > s.sent || next.s.waited == s.waited + 1)
      && Starved(env, next.s, need)
  {
    hide Pass, InstructionsWithin, InstructionLength, Undisturbed;
    UndisturbedPass(cfg, env, payload, s, bound);
    PassShape(cfg, env, payload, s);
    assert FreesWithin(cfg, env, s.port.asked - s.waited, need);
  }

  /** If the buffer frees enough within each stall budget and nothing fails, everything is sent. */
  lemma {:induction false} UndisturbedRunSendsAll(cfg: Config, env: Env, payload: string, s: State, bound: nat,
      need: nat)
    requires s.sent <= |payload| && s.waited <= cfg.stallPolls && s.waited <= s.port.asked
    requires s.sent == 0 || Boundary(payload, s.sent)
    requires InstructionsWithin(payload, bound) && need == bound + cfg.margin <= INPUT_BUFFER_BYTES
    requires cfg.chunk > 0 && Undisturbed(env) && DrainsInTime(cfg, env, need) && Starved(env, s, need)
    ensures Run(cfg, env, payload, s).0 == Sent(|payload|)
    decreases |payload| - s.sent, cfg.stallPolls - s.waited
  {
    if s.sent == |payload| {
      assert env.errors(s.port.checked) != Code(OVERFLOW_ERROR);
    } else {
      UndisturbedStep(cfg, env, payload, s, bound, need);
      UndisturbedRunSendsAll(cfg, env, payload, Pass(cfg, env, payload, s).s, bound, need);
    }
  }

  /** Every instruction that has its terminator is at most `bound` bytes long. */
  ghost predicate TerminatedWithin(payload: string, bound: nat) {
    forall i :: 0 <= i < |payload| && (i == 0 || Boundary(payload, i))
      && Boundary(payload, i + InstructionLength(payload, i))
      ==> InstructionLength(payload, i) <= bound
  }

  lemma EndsTerminated(payload: string, bound: nat)
    requires TerminatedWithin(payload, bound) && (payload == "" || payload[|payload| - 1] == ';')
    ensures InstructionsWithin(payload, bound)
  {
    hide InstructionLength;
    forall i | 0 <= i < |payload| && (i == 0 || Boundary(payload, i))
      ensures InstructionLength(payload, i) <= bound && Boundary(payload, i + InstructionLength(payload, i))
    {
      TerminatorAhead(payload, i);
    }
  }

  lemma TerminatorAhead(payload: string, i: nat)
    requires i < |payload| && payload[|payload| - 1] == ';'
    ensures Boundary(payload, i + InstructionLength(payload, i))
  {
    assert payload[i..|payload|][|payload| - 1 - i] == ';';
  }

  /** Undisturbed and with a plotter that drains, a payload whose instructions fit is sent exactly
      when it is empty or ends at a terminator. */
  lemma SentExactlyWhenTerminated(cfg: Config, env: Env, payload: string, port: Port, bound: nat, need: nat)
    requires TerminatedWithin(payload, bound) && need == bound + cfg.margin <= INPUT_BUFFER_BYTES
    requires cfg.chunk > 0 && Undisturbed(env) && DrainsInTime(cfg, env, need)
    ensures Run(cfg, env, payload, Start(port)).0.Sent? <==> payload == "" || payload[|payload| - 1] == ';'
  {
    if payload == "" || payload[|payload| - 1] == ';' {
      EndsTerminated(payload, bound);
      UndisturbedRunSendsAll(cfg, env, payload, Start(port), bound, need);
    } else {
      UnterminatedNeverCompletes(cfg, env, payload, port);
    }
  }

  // ---- the imperative streamer --------------------------------------------------------

  class ChunkedStreamer {
    const cfg: Config
    const env: Env
    var port: Port
    var reported: Option<nat>

    constructor (cfg: Config, env: Env)
      ensures this.cfg == cfg && this.env == env && this.port == FRESH_PORT && reported == None
    {
      this.cfg, this.env, this.port, this.reported := cfg, env, FRESH_PORT, None;
    }

    /** Bounded retries over timeouts, garbage and impossible values. */
    method AskFree() returns (r: SpaceResult)
      modifies this`port
      ensures (r, port) == QueryFree(env, old(port), cfg.retries)
    {
      var attempt := 0;
      while attempt <= cfg.retries
        invariant 0 <= attempt <= cfg.retries
        invariant QueryFree(env, old(port), cfg.retries) == QueryFree(env, port, cfg.retries - attempt)
        decreases cfg.retries - attempt
      {
        var reply := env.space(port.asked);
        port := port.(asked := port.asked + 1);
        match reply {
          case PortLost => return Gone;
          case Line(value) =>
            if 0 <= value <= INPUT_BUFFER_BYTES {
              return Free(value);
            }
          case _ =>
        }
        if attempt == cfg.retries {
          return NoReply;
        }
        attempt := attempt + 1;
      }
    }

    method OverflowReported() returns (overflowed: bool)
      modifies this`port
      ensures (overflowed, port) == CheckOverflow(env, old(port))
    {
      var reply := env.errors(port.checked);
      port := port.(checked := port.checked + 1);
      return reply == Code(OVERFLOW_ERROR);
    }

    method Put(data: string) returns (w: WriteResult)
      modifies this`port
      ensures (w, port) == Write(env, old(port), data)
    {
      var outcome := env.writes(port.wrote);
      port := port.(wrote := port.wrote + 1);
      match outcome {
        case Full =>
          port := port.(wire := port.wire + [data]);
          return Done;
        case Failed(n) =>
          port := port.(wire := port.wire + [Take(data, n)]);
          return Broke;
        case Lost(n) =>
          port := port.(wire := port.wire + [Take(data, n)]);
          return Vanished;
      }
    }

    /** Waiting, refusing, or cutting and writing: what a usable reading leads to. */
    method Answer(payload: string, sent0: nat, waited0: nat, free: nat)
      returns (halted: Option<Outcome>, sent: nat, waited: nat)
      requires sent0 < |payload|
      modifies this
      ensures match Respond(cfg, env, payload, State(old(port), sent0, waited0, old(reported)), free)
        case Again(s) => halted == None && State(port, sent, waited, reported) == s
        case Halt(o, s) => halted == Some(o) && State(port, sent, waited, reported) == s
    {
      halted, sent, waited := None, sent0, waited0;
      if Min(free - cfg.margin, cfg.chunk) <= 0 {
        var overflowed := OverflowReported();
        if overflowed {
          halted := Some(Interrupted(BufferOverflowed));
        } else if waited >= cfg.stallPolls {
          halted := Some(Interrupted(BufferStayedFull));
        } else {
          waited := waited + 1;
        }
        return;
      }
      var end := ChooseEnd(cfg, payload, sent, free);
      if end == -1 {
        var length := InstructionLength(payload, sent);
        if length > INPUT_BUFFER_BYTES - cfg.margin {
          halted := Some(Interrupted(InstructionTooLong(length)));
        } else if waited >= cfg.stallPolls {
          halted := Some(Interrupted(BufferStayedFull));
        } else {
          var overflowed := OverflowReported();
          if overflowed {
            halted := Some(Interrupted(BufferOverflowed));
          } else {
            waited := waited + 1;
          }
        }
        return;
      }
      waited := 0;
      var written := Put(payload[sent..end]);
      match written {
        case Vanished => halted := Some(Disconnected);
        case Broke => halted := Some(Interrupted(WriteBroke(sent)));
        case Done =>
          sent := end;
          reported := Some(sent);
      }
    }

    /** One pass of the loop. */
    method Turn(payload: string, sent0: nat, waited0: nat) returns (halted: Option<Outcome>, sent: nat, waited: nat)
      requires sent0 < |payload|
      modifies this
      ensures match Pass(cfg, env, payload, State(old(port), sent0, waited0, old(reported)))
        case Again(s) => halted == None && State(port, sent, waited, reported) == s
        case Halt(o, s) => halted == Some(o) && State(port, sent, waited, reported) == s
    {
      halted, sent, waited := None, sent0, waited0;
      var signals := env.signals(port.heads);
      port := port.(heads := port.heads + 1);
      if signals.cancel {
        halted := Some(Interrupted(CancelledByUser));
      } else if signals.pause {
        halted := Some(Interrupted(PausedByUser));
      } else if signals.shutdown {
        halted := Some(Interrupted(WorkerStopped));
      } else {
        var reading := AskFree();
        match reading {
          case Gone => halted := Some(Disconnected);
          case NoReply => halted := Some(Interrupted(NoSpaceReply));
          case Free(free) =>
            reported := Some(sent);
            halted, sent, waited := Answer(payload, sent, waited, free);
        }
      }
    }

    /** A pass, seen from the whole call: what is left to do does not change. */
    method Advance(payload: string, sent0: nat, waited0: nat) returns (halted: Option<Outcome>, sent: nat, waited: nat)
      requires sent0 < |payload| && waited0 <= cfg.stallPolls
      modifies this
      ensures sent <= |payload|
      ensures halted.None? ==> waited <= cfg.stallPolls && sent0 <= sent && (sent > sent0 || waited > waited0)
      ensures halted.None? ==>
        Run(cfg, env, payload, State(old(port), sent0, waited0, old(reported))) ==
        Run(cfg, env, payload, State(port, sent, waited, reported))
      ensures halted.Some? ==>
        Run(cfg, env, payload, State(old(port), sent0, waited0, old(reported))) ==
        (halted.value, Closing(env, payload, halted.value, State(port, sent, waited, reported)))
    {
      ghost var s := State(port, sent0, waited0, reported);
      PassShape(cfg, env, payload, s);
      RunUnfolds(cfg, env, payload, s);
      halted, sent, waited := Turn(payload, sent0, waited0);
    }

    /** The end of the call: the last look at the error register, or the closing terminator. */
    method Finish(payload: string, halted: Option<Outcome>, sent: nat, waited: nat) returns (o: Outcome)
      requires halted.None? ==> sent == |payload| && waited <= cfg.stallPolls
      modifies this`port
      ensures var s := State(old(port), sent, waited, reported);
        var t := State(port, sent, waited, reported);
        if halted.None? then (o, t) == Run(cfg, env, payload, s)
        else o == halted.value && t == Closing(env, payload, o, s)
    {
      if halted.None? {
        var overflowed := OverflowReported();
        o := if overflowed then Interrupted(BufferOverflowed) else Sent(sent);
      } else {
        o := halted.value;
        if o == Interrupted(CancelledByUser) && sent < |payload| {
          var _ := Put(";");
        }
      }
    }

    /** The streaming loop, against the specification `Run`. */
    method Stream(payload: string) returns (o: Outcome, ghost end: State)
      modifies this
      ensures (o, end) == Run(cfg, env, payload, Start(old(port)).(reported := old(reported)))
      ensures port == end.port && reported == end.reported
    {
      ghost var all := Run(cfg, env, payload, State(port, 0, 0, reported));
      var sent: nat, waited: nat := 0, 0;
      var halted: Option<Outcome> := None;
      while halted.None? && sent < |payload|
        invariant sent <= |payload| && (halted.None? ==> waited <= cfg.stallPolls)
        invariant halted.None? ==> all == Run(cfg, env, payload, State(port, sent, waited, reported))
        invariant halted.Some? ==>
          all == (halted.value, Closing(env, payload, halted.value, State(port, sent, waited, reported)))
        decreases halted.None?, |payload| - sent, cfg.stallPolls - waited
      {
        halted, sent, waited := Advance(payload, sent, waited);
      }
      o := Finish(payload, halted, sent, waited);
      end := State(port, sent, waited, reported);
    }
  }
}
