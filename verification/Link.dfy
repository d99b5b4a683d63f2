/** The streaming protocol. */
module Link {
  // An interleaved system: host, wire, plotter buffer and the reply line move independently.
  // Queries travel in stream order with the payload bytes; a query whose reply comes too late
  // leaves that reply behind as the answer to a later query.

  import opened Protocol
  import opened Text
  import opened Chunking
  import opened Streamer

  datatype Kind = Space | Error
  /** A query on its way: it stands behind the first `at` payload bytes. */
  datatype Query = Query(kind: Kind, at: nat)
  datatype Answer = Answer(kind: Kind, at: nat, value: nat)
  datatype Phase = Head | Asked(kind: Kind) | Stopped

  datatype System = System(
    sent: nat,              // payload bytes handed to the wire
    arrived: nat,           // payload bytes read by the plotter
    buffer: string,         // the plotter's input buffer
    done: string,           // bytes popped by the plotter, in order
    lost: nat,
    latched: bool,          // RS-232 error 16 pending
    queries: seq<Query>,
    answers: seq<Answer>,
    phase: Phase,
    tries: nat,             // repetitions of the query being waited for
    closed: bool)           // a cancel has closed the stream with one more terminator

  /** What the host has written: a prefix of the payload, and the terminator that closes it. */
  function ClosingByte(s: System): string { if s.closed then ";" else "" }

  function Wire(payload: string, s: System): string
    requires s.sent <= |payload|
  {
    payload[..s.sent] + ClosingByte(s)
  }

  /** How often a query may be repeated: the transport repeats error queries on its own account. */
  const ERROR_RETRIES: nat := 3

  function Retries(cfg: Config, kind: Kind): nat { if kind == Space then cfg.retries else ERROR_RETRIES }

  /** What the host does with a reading. */
  datatype Decision = Cut(end: nat) | Wait | Refuse

  function Decide(cfg: Config, payload: string, sent: nat, free: nat): (d: Decision)
    requires sent <= |payload|
    ensures d.Cut? ==> sent < d.end <= |payload| && d.end <= sent + free - cfg.margin && Boundary(payload, d.end)
  {
    if Min(free - cfg.margin, cfg.chunk) <= 0 then Wait
    else
      var end := ChooseEnd(cfg, payload, sent, free);
      if end != -1 then Cut(end)
      else if InstructionLength(payload, sent) > INPUT_BUFFER_BYTES - cfg.margin then Refuse
      else Wait
  }

  /** The host's decision is the one the streaming loop takes. */
  lemma DecideIsPass(cfg: Config, env: Env, payload: string, s: State, free: nat)
    requires s.sent < |payload| && s.waited < cfg.stallPolls
    requires env.signals(s.port.heads) == Signals(false, false, false)
    requires env.space(s.port.asked) == Line(free) && free <= INPUT_BUFFER_BYTES
    requires env.errors(s.port.checked) != Code(OVERFLOW_ERROR) && env.writes(s.port.wrote) == Full
    ensures var next := Pass(cfg, env, payload, s);
      match Decide(cfg, payload, s.sent, free)
      case Cut(end) => next.Again? && next.s.sent == end && next.s.port.wire == s.port.wire + [payload[s.sent..end]]
      case Wait => next.Again? && next.s.sent == s.sent && next.s.port.wire == s.port.wire
      case Refuse => next == Halt(Interrupted(InstructionTooLong(InstructionLength(payload, s.sent))), next.s)
  {
    assert QueryFree(env, s.port.(heads := s.port.heads + 1), cfg.retries).0 == Free(free);
  }

  // ---- steps --------------------------------------------------------------------------

  datatype Step =
    | Ask(kind: Kind)           // the host sends a query from the loop head
    | Retry                     // no usable line in time: throw pending lines away, ask again
    | GiveUp                    // retries exhausted
    | Cancel                    // the user cancels: the host closes the stream and stops
    | Take                      // the host takes the next line as its answer
    | Read(bytes: nat, answered: nat)   // the plotter reads a block and answers its queries
    | Pop(n: nat)               // the plotter executes from the front of its buffer

  /** Replies to a block's queries, computed after the block's bytes are buffered. */
  function Replies(queries: seq<Query>, free: nat, latched: bool): seq<Answer> {
    if queries == [] then []
    else
      var q := queries[0];
      match q.kind
      case Space => [Answer(Space, q.at, free)] + Replies(queries[1..], free, latched)
      case Error => [Answer(Error, q.at, if latched then OVERFLOW_ERROR else 0)] + Replies(queries[1..], free, false)
  }

  predicate AsksError(queries: seq<Query>) { exists q :: q in queries && q.kind == Error }

  predicate InErrorTable(code: nat) { code == 0 || 10 <= code <= 16 }

  ghost predicate IsAsk(payload: string, s: System, kind: Kind, t: System) {
    && s.phase == Head && (kind == Space ==> s.sent < |payload|)
    && t == s.(queries := s.queries + [Query(kind, s.sent)], phase := Asked(kind), tries := 0)
  }

  ghost predicate IsRetry(cfg: Config, s: System, t: System) {
    && s.phase.Asked? && s.tries < Retries(cfg, s.phase.kind)
    && t == s.(answers := [], queries := s.queries + [Query(s.phase.kind, s.sent)], tries := s.tries + 1)
  }

  ghost predicate IsGiveUp(cfg: Config, s: System, t: System) {
    && s.phase.Asked? && s.tries == Retries(cfg, s.phase.kind)
    && t == s.(answers := [], phase := if s.phase.kind == Error then Head else Stopped)
  }

  ghost predicate IsCancel(payload: string, s: System, t: System) {
    s.phase == Head && s.sent < |payload| && !s.closed && t == s.(closed := true, phase := Stopped)
  }

  ghost predicate IsTakeError(s: System, t: System) {
    && s.phase == Asked(Error) && s.answers != []
    && var value := s.answers[0].value;
    && InErrorTable(value)
    && t == s.(answers := s.answers[1..], phase := if value == OVERFLOW_ERROR then Stopped else Head)
  }

  ghost predicate IsTakeSpace(cfg: Config, payload: string, s: System, t: System)
    requires s.sent <= |payload|
  {
    && s.phase == Asked(Space) && s.answers != []
    && var taken := s.(answers := s.answers[1..]);
    match Decide(cfg, payload, s.sent, s.answers[0].value)
    case Cut(end) => t == taken.(phase := Head, sent := end)
    case Wait => t == taken.(phase := Head)
    case Refuse => t == taken.(phase := Stopped)
  }

  ghost predicate IsRead(payload: string, s: System, bytes: nat, answered: nat, t: System)
    requires Sane(payload, s)
  {
    && s.arrived + bytes <= |Wire(payload, s)| && answered <= |s.queries|
    && (forall i :: 0 <= i < answered ==> s.queries[i].at <= s.arrived + bytes)
    && (forall i :: answered <= i < |s.queries| ==> s.queries[i].at >= s.arrived + bytes)
    && var take := Min(bytes, INPUT_BUFFER_BYTES - |s.buffer|);
    var buffer := s.buffer + Wire(payload, s)[s.arrived..s.arrived + take];
    var latched := s.latched || take < bytes;
    var heard := s.queries[..answered];
    t == s.(arrived := s.arrived + bytes, buffer := buffer, lost := s.lost + (bytes - take),
            latched := latched && !AsksError(heard), queries := s.queries[answered..],
            answers := s.answers + Replies(heard, INPUT_BUFFER_BYTES - |buffer|, latched))
  }

  ghost predicate IsPop(s: System, n: nat, t: System) {
    1 <= n <= |s.buffer| && t == s.(done := s.done + s.buffer[..n], buffer := s.buffer[n..])
  }

  ghost predicate Moves(cfg: Config, payload: string, s: System, step: Step, t: System)
    requires Sane(payload, s)
  {
    match step
    case Ask(kind) => IsAsk(payload, s, kind, t)
    case Retry => IsRetry(cfg, s, t)
    case GiveUp => IsGiveUp(cfg, s, t)
    case Cancel => IsCancel(payload, s, t)
    case Take => IsTakeError(s, t) || IsTakeSpace(cfg, payload, s, t)
    case Read(bytes, answered) => IsRead(payload, s, bytes, answered, t)
    case Pop(n) => IsPop(s, n, t)
  }

  /** Replies on the way besides the one being waited for: the stale lines. */
  function Slipped(s: System): int {
    |s.queries| + |s.answers| - (if s.phase.Asked? then 1 else 0)
  }

  ghost predicate Initial(s: System, residue: string) {
    s == System(0, 0, residue, "", 0, false, [], [], Head, 0, false)
  }

  ghost predicate Sane(payload: string, s: System) {
    s.sent <= |payload| && s.arrived <= |Wire(payload, s)| && |s.buffer| <= INPUT_BUFFER_BYTES
  }

  /** A run in which at most `slips` replies are ever outstanding beyond the awaited one. */
  ghost predicate IsRun(cfg: Config, payload: string, residue: string, slips: nat, run: seq<System>, steps: seq<Step>) {
    && |run| == |steps| + 1
    && Initial(run[0], residue)
    && (forall i :: 0 <= i < |run| ==> Sane(payload, run[i]) && Slipped(run[i]) <= slips)
    && (forall i :: 0 <= i < |steps| ==> Moves(cfg, payload, run[i], steps[i], run[i + 1]))
  }

  ghost predicate Reachable(cfg: Config, payload: string, residue: string, slips: nat, s: System) {
    exists run: seq<System>, steps: seq<Step> ::
      IsRun(cfg, payload, residue, slips, run, steps) && run[|run| - 1] == s
  }

  lemma ReachableStep(cfg: Config, payload: string, residue: string, slips: nat, s: System, step: Step, t: System)
    requires Reachable(cfg, payload, residue, slips, s)
    requires Sane(payload, s) && Moves(cfg, payload, s, step, t) && Sane(payload, t) && Slipped(t) <= slips
    ensures Reachable(cfg, payload, residue, slips, t)
  {
    var run: seq<System>, steps: seq<Step> :|
      IsRun(cfg, payload, residue, slips, run, steps) && run[|run| - 1] == s;
    var run', steps' := run + [t], steps + [step];
    assert IsRun(cfg, payload, residue, slips, run', steps');
    assert run'[|run'| - 1] == t;
  }

  // ---- the invariant ------------------------------------------------------------------

  /** Stream offsets of everything outstanding, oldest first. */
  function Outstanding(s: System): (r: seq<nat>)
    ensures |r| == |s.answers| + |s.queries|
  {
    seq(|s.answers|, i requires 0 <= i < |s.answers| => s.answers[i].at)
    + seq(|s.queries|, i requires 0 <= i < |s.queries| => s.queries[i].at)
  }

  /** Consecutive queries are at most one chunk apart, and so is the last one from `sent`. */
  ghost predicate Spaced(offsets: seq<nat>, sent: nat, chunk: nat, asked: bool) {
    && (forall i :: 0 <= i < |offsets| - 1 ==> offsets[i] <= offsets[i + 1] <= offsets[i] + chunk)
    && (offsets != [] ==> offsets[|offsets| - 1] <= sent)
    && (offsets != [] ==> sent <= offsets[|offsets| - 1] + if asked then 0 else chunk)
  }

  /** A reading is honest about some moment since its query was sent. */
  predicate Honest(residue: nat, done: nat, a: Answer) {
    && a.value <= INPUT_BUFFER_BYTES
    && (a.kind == Error ==> a.value == 0)
    && (a.kind == Space ==> residue + a.at + a.value <= INPUT_BUFFER_BYTES + done)
  }

  /** Occupied plus in-flight payload bytes never exceed this. */
  function Ceiling(cfg: Config, slips: nat): int { INPUT_BUFFER_BYTES - cfg.margin + slips * cfg.chunk }

  /** The bytes: nothing lost, order kept, the ceiling respected. */
  ghost predicate BytesOk(cfg: Config, payload: string, residue: string, slips: nat, s: System) {
    && Sane(payload, s)
    && s.lost == 0 && !s.latched
    && s.done + s.buffer == residue + Wire(payload, s)[..s.arrived]
    && (s.closed ==> s.phase.Stopped?)
    && (s.sent == 0 || Boundary(payload, s.sent))
    && |residue| + s.sent - |s.done| <= Ceiling(cfg, slips)
    && (s.phase == Asked(Space) ==> s.sent < |payload|)
  }

  /** The lines: queries are spaced by single writes, and no reply overstates the room. */
  ghost predicate LinesOk(cfg: Config, residue: string, s: System) {
    && Spaced(Outstanding(s), s.sent, cfg.chunk, s.phase.Asked?)
    && (forall i :: 0 <= i < |s.answers| ==> Honest(|residue|, |s.done|, s.answers[i]))
  }

  ghost predicate Inv(cfg: Config, payload: string, residue: string, slips: nat, s: System) {
    BytesOk(cfg, payload, residue, slips, s) && LinesOk(cfg, residue, s)
  }

  lemma SpacedPush(offsets: seq<nat>, sent: nat, chunk: nat, asked: bool)
    requires Spaced(offsets, sent, chunk, asked)
    ensures Spaced(offsets + [sent], sent, chunk, true)
  {
  }

  lemma SpacedDrop(offsets: seq<nat>, n: nat, sent: nat, chunk: nat, asked: bool)
    requires n <= |offsets| && Spaced(offsets, sent, chunk, asked)
    ensures Spaced(offsets[n..], sent, chunk, asked)
  {
    var rest := offsets[n..];
    forall i | 0 <= i < |rest| - 1 ensures rest[i] <= rest[i + 1] <= rest[i] + chunk {
      assert offsets[n + i] <= offsets[n + i + 1] <= offsets[n + i] + chunk;
    }
  }

  lemma {:induction false} OldestOffset(offsets: seq<nat>, sent: nat, chunk: nat)
    requires offsets != [] && Spaced(offsets, sent, chunk, true)
    ensures sent <= offsets[0] + (|offsets| - 1) * chunk
    decreases |offsets|
  {
    if |offsets| > 1 {
      var rest := offsets[1..];
      assert forall i :: 0 <= i < |rest| ==> rest[i] == offsets[i + 1];
      OldestOffset(rest, sent, chunk);
      assert (|offsets| - 1) * chunk == (|rest| - 1) * chunk + chunk;
      assert offsets[0] <= offsets[0 + 1] <= offsets[0] + chunk;
    }
  }

  lemma {:induction false} RepliesShape(queries: seq<Query>, free: nat, latched: bool)
    ensures var r := Replies(queries, free, latched);
      && |r| == |queries|
      && (forall i :: 0 <= i < |r| ==> r[i].at == queries[i].at && r[i].kind == queries[i].kind)
      && (forall i :: 0 <= i < |r| && r[i].kind == Space ==> r[i].value == free)
      && (forall i :: 0 <= i < |r| && r[i].kind == Error && !latched ==> r[i].value == 0)
  {
    if queries != [] {
      var latched' := latched && queries[0].kind != Error;
      RepliesShape(queries[1..], free, latched');
    }
  }

  /** A write is no longer than one chunk when every instruction fits the chunk. */
  lemma CutFitsChunk(cfg: Config, payload: string, sent: nat, free: nat)
    requires sent < |payload| && (sent == 0 || Boundary(payload, sent))
    requires InstructionsWithin(payload, cfg.chunk)
    ensures var d := Decide(cfg, payload, sent, free); d.Cut? ==> d.end - sent <= cfg.chunk
  {
    var e := sent + InstructionLength(payload, sent);
    assert Boundary(payload, e) && e <= sent + cfg.chunk;
  }

  lemma OutstandingDrop(s: System, t: System, n: nat)
    requires n <= |s.answers| && t.answers == s.answers[n..] && t.queries == s.queries
    ensures Outstanding(t) == Outstanding(s)[n..]
  {
  }

  /** Throwing pending lines away keeps the rest in order. */
  lemma DrainLines(cfg: Config, residue: string, s: System)
    requires LinesOk(cfg, residue, s)
    ensures LinesOk(cfg, residue, s.(answers := []))
  {
    OutstandingDrop(s, s.(answers := []), |s.answers|);
    SpacedDrop(Outstanding(s), |s.answers|, s.sent, cfg.chunk, s.phase.Asked?);
  }

  lemma PushLines(cfg: Config, residue: string, s: System, kind: Kind)
    requires LinesOk(cfg, residue, s)
    ensures LinesOk(cfg, residue, s.(queries := s.queries + [Query(kind, s.sent)], phase := Asked(kind)))
  {
    var t := s.(queries := s.queries + [Query(kind, s.sent)], phase := Asked(kind));
    SpacedPush(Outstanding(s), s.sent, cfg.chunk, s.phase.Asked?);
    assert Outstanding(t) == Outstanding(s) + [s.sent];
  }

  /** The oldest line is at most `slips` writes old. */
  lemma OldestAnswer(cfg: Config, residue: string, slips: nat, s: System)
    requires LinesOk(cfg, residue, s) && s.phase.Asked? && s.answers != [] && Slipped(s) <= slips
    ensures s.sent <= s.answers[0].at + slips * cfg.chunk
  {
    var offsets := Outstanding(s);
    OldestOffset(offsets, s.sent, cfg.chunk);
    assert (|offsets| - 1) * cfg.chunk <= slips * cfg.chunk;
  }

  /** Taking a reading keeps the ceiling: this is where the margin pays for stale lines. */
  lemma TakeSpaceBytes(cfg: Config, payload: string, residue: string, slips: nat, s: System, t: System)
    requires Inv(cfg, payload, residue, slips, s) && Slipped(s) <= slips
    requires IsTakeSpace(cfg, payload, s, t)
    ensures BytesOk(cfg, payload, residue, slips, t)
  {
    OldestAnswer(cfg, residue, slips, s);
    assert Honest(|residue|, |s.done|, s.answers[0]);
  }

  lemma TakeLines(cfg: Config, payload: string, residue: string, s: System, t: System)
    requires LinesOk(cfg, residue, s) && s.phase.Asked? && s.answers != []
    requires t.answers == s.answers[1..] && t.queries == s.queries && t.done == s.done && !t.phase.Asked?
    requires s.sent <= t.sent
    requires t.sent <= s.sent + cfg.chunk || |t.answers| + |t.queries| == 0
    ensures LinesOk(cfg, residue, t)
  {
    OutstandingDrop(s, t, 1);
    SpacedDrop(Outstanding(s), 1, s.sent, cfg.chunk, true);
    assert forall i :: 0 <= i < |t.answers| ==> t.answers[i] == s.answers[i + 1];
  }

  lemma TakeSpaceLines(cfg: Config, payload: string, residue: string, slips: nat, s: System, t: System)
    requires Inv(cfg, payload, residue, slips, s) && Slipped(s) <= slips
    requires slips == 0 || InstructionsWithin(payload, cfg.chunk)
    requires IsTakeSpace(cfg, payload, s, t)
    ensures LinesOk(cfg, residue, t)
  {
    if slips > 0 {
      CutFitsChunk(cfg, payload, s.sent, s.answers[0].value);
    }
    TakeLines(cfg, payload, residue, s, t);
  }

  lemma ReadFits(cfg: Config, payload: string, residue: string, slips: nat, s: System, bytes: nat)
    requires BytesOk(cfg, payload, residue, slips, s) && Ceiling(cfg, slips) + |ClosingByte(s)| <= INPUT_BUFFER_BYTES
    requires s.arrived + bytes <= |Wire(payload, s)|
    ensures |s.done| + |s.buffer| == |residue| + s.arrived && |s.buffer| + bytes <= INPUT_BUFFER_BYTES
  {
    assert |s.done + s.buffer| == |residue| + s.arrived;
  }

  lemma BytesMove(done: string, buffer: string, residue: string, wire: string, lo: nat, hi: nat)
    requires lo <= hi <= |wire| && done + buffer == residue + wire[..lo]
    ensures done + (buffer + wire[lo..hi]) == residue + wire[..hi]
  {
    assert wire[..hi] == wire[..lo] + wire[lo..hi];
    assert done + (buffer + wire[lo..hi]) == (done + buffer) + wire[lo..hi];
  }

  lemma ReadBytes(cfg: Config, payload: string, residue: string, slips: nat, s: System, bytes: nat, answered: nat,
      t: System)
    requires BytesOk(cfg, payload, residue, slips, s) && Ceiling(cfg, slips) + |ClosingByte(s)| <= INPUT_BUFFER_BYTES
    requires IsRead(payload, s, bytes, answered, t)
    ensures BytesOk(cfg, payload, residue, slips, t)
    ensures t.done == s.done
    ensures t.answers == s.answers + Replies(s.queries[..answered], INPUT_BUFFER_BYTES - |t.buffer|, false)
    ensures |t.done| + |t.buffer| == |residue| + t.arrived
  {
    hide Replies, AsksError, Boundary;
    ReadFits(cfg, payload, residue, slips, s, bytes);
    BytesMove(s.done, s.buffer, residue, Wire(payload, s), s.arrived, s.arrived + bytes);
  }

  /** A block's replies are honest: each was computed with every byte before its query buffered. */
  lemma RepliesHonest(residue: nat, done: nat, heard: seq<Query>, free: nat)
    requires free <= INPUT_BUFFER_BYTES
    requires forall i :: 0 <= i < |heard| ==> residue + heard[i].at + free <= INPUT_BUFFER_BYTES + done
    ensures forall i :: 0 <= i < |Replies(heard, free, false)| ==> Honest(residue, done, Replies(heard, free, false)[i])
  {
    RepliesShape(heard, free, false);
  }

  lemma OutstandingRead(s: System, t: System, answered: nat, replies: seq<Answer>)
    requires answered <= |s.queries| && |replies| == answered
    requires forall i :: 0 <= i < answered ==> replies[i].at == s.queries[i].at
    requires t.answers == s.answers + replies && t.queries == s.queries[answered..]
    ensures Outstanding(t) == Outstanding(s)
  {
  }

  /** Answering queries keeps the lines in order and honest, whatever happens to the bytes. */
  lemma AnswerLines(cfg: Config, residue: string, s: System, t: System, heard: seq<Query>, free: nat)
    requires LinesOk(cfg, residue, s)
    requires free <= INPUT_BUFFER_BYTES && s.queries == heard + t.queries
    requires forall i :: 0 <= i < |heard| ==> heard[i].at <= t.arrived
    requires |residue| + t.arrived + free <= INPUT_BUFFER_BYTES + |s.done|
    requires t.answers == s.answers + Replies(heard, free, false)
    requires t.sent == s.sent && t.done == s.done && t.phase == s.phase
    ensures LinesOk(cfg, residue, t)
  {
    RepliesShape(heard, free, false);
    RepliesHonest(|residue|, |s.done|, heard, free);
    OutstandingRead(s, t, |heard|, Replies(heard, free, false));
  }

  lemma ReadLines(cfg: Config, payload: string, residue: string, slips: nat, s: System, bytes: nat, answered: nat,
      t: System)
    requires Inv(cfg, payload, residue, slips, s) && Ceiling(cfg, slips) + |ClosingByte(s)| <= INPUT_BUFFER_BYTES
    requires IsRead(payload, s, bytes, answered, t)
    ensures LinesOk(cfg, residue, t)
  {
    ReadBytes(cfg, payload, residue, slips, s, bytes, answered, t);
    AnswerLines(cfg, residue, s, t, s.queries[..answered], INPUT_BUFFER_BYTES - |t.buffer|);
  }

  lemma PopKeeps(cfg: Config, payload: string, residue: string, slips: nat, s: System, n: nat, t: System)
    requires Inv(cfg, payload, residue, slips, s) && IsPop(s, n, t)
    ensures Inv(cfg, payload, residue, slips, t)
  {
    assert t.done + t.buffer == s.done + s.buffer;
    assert Outstanding(t) == Outstanding(s);
  }

  lemma RetryKeeps(cfg: Config, payload: string, residue: string, slips: nat, s: System, t: System)
    requires Inv(cfg, payload, residue, slips, s) && IsRetry(cfg, s, t)
    ensures Inv(cfg, payload, residue, slips, t)
  {
    DrainLines(cfg, residue, s);
    PushLines(cfg, residue, s.(answers := []), s.phase.kind);
  }

  lemma GiveUpKeeps(cfg: Config, payload: string, residue: string, slips: nat, s: System, t: System)
    requires Inv(cfg, payload, residue, slips, s) && IsGiveUp(cfg, s, t)
    ensures Inv(cfg, payload, residue, slips, t)
  {
    DrainLines(cfg, residue, s);
    assert Outstanding(t) == Outstanding(s.(answers := []));
  }

  lemma CancelKeeps(cfg: Config, payload: string, residue: string, slips: nat, s: System, t: System)
    requires Inv(cfg, payload, residue, slips, s) && IsCancel(payload, s, t)
    ensures Inv(cfg, payload, residue, slips, t)
  {
    assert Wire(payload, t)[..t.arrived] == Wire(payload, s)[..s.arrived];
    assert Outstanding(t) == Outstanding(s);
  }

  lemma TakeErrorKeeps(cfg: Config, payload: string, residue: string, slips: nat, s: System, t: System)
    requires Inv(cfg, payload, residue, slips, s) && IsTakeError(s, t)
    ensures Inv(cfg, payload, residue, slips, t)
  {
    TakeLines(cfg, payload, residue, s, t);
  }

  /** Every step of every part keeps the invariant. */
  lemma StepKeeps(cfg: Config, payload: string, residue: string, slips: nat, s: System, step: Step, t: System)
    requires Inv(cfg, payload, residue, slips, s) && Slipped(s) <= slips
    requires Ceiling(cfg, slips) + |ClosingByte(s)| <= INPUT_BUFFER_BYTES
    requires slips == 0 || InstructionsWithin(payload, cfg.chunk)
    requires Moves(cfg, payload, s, step, t)
    ensures Inv(cfg, payload, residue, slips, t)
  {
    match step {
      case Ask(kind) => PushLines(cfg, residue, s, kind);
      case Retry => RetryKeeps(cfg, payload, residue, slips, s, t);
      case GiveUp => GiveUpKeeps(cfg, payload, residue, slips, s, t);
      case Take =>
        if IsTakeError(s, t) {
          TakeErrorKeeps(cfg, payload, residue, slips, s, t);
        } else {
          TakeSpaceBytes(cfg, payload, residue, slips, s, t);
          TakeSpaceLines(cfg, payload, residue, slips, s, t);
        }
      case Read(bytes, answered) =>
        ReadBytes(cfg, payload, residue, slips, s, bytes, answered, t);
        ReadLines(cfg, payload, residue, slips, s, bytes, answered, t);
      case Pop(n) => PopKeeps(cfg, payload, residue, slips, s, n, t);
      case Cancel => CancelKeeps(cfg, payload, residue, slips, s, t);
    }
  }

  lemma StartKeeps(cfg: Config, payload: string, residue: string, slips: nat, s: System)
    requires Initial(s, residue) && |residue| <= INPUT_BUFFER_BYTES - cfg.margin
    ensures Inv(cfg, payload, residue, slips, s)
  {
    assert Wire(payload, s)[..0] == "" && residue + "" == residue;
  }

  lemma RunStep(cfg: Config, payload: string, residue: string, slips: nat, run: seq<System>, steps: seq<Step>, i: nat)
    requires IsRun(cfg, payload, residue, slips, run, steps) && 0 < i < |run|
    ensures Moves(cfg, payload, run[i - 1], steps[i - 1], run[i]) && Slipped(run[i - 1]) <= slips
  {
    assert Moves(cfg, payload, run[i - 1], steps[i - 1], run[i - 1 + 1]);
  }

  lemma RunStepKeeps(
    cfg: Config, payload: string, residue: string, slips: nat, run: seq<System>, steps: seq<Step>, i: nat)
    requires IsRun(cfg, payload, residue, slips, run, steps) && 0 < i < |run|
    requires Ceiling(cfg, slips) + |ClosingByte(run[i - 1])| <= INPUT_BUFFER_BYTES
    requires slips == 0 || InstructionsWithin(payload, cfg.chunk)
    requires Inv(cfg, payload, residue, slips, run[i - 1])
    ensures Inv(cfg, payload, residue, slips, run[i])
  {
    RunStep(cfg, payload, residue, slips, run, steps, i);
    StepKeeps(cfg, payload, residue, slips, run[i - 1], steps[i - 1], run[i]);
  }

  lemma StaysClosed(cfg: Config, payload: string, s: System, step: Step, t: System)
    requires Sane(payload, s) && Moves(cfg, payload, s, step, t)
    ensures |ClosingByte(s)| <= |ClosingByte(t)|
  {
  }

  lemma {:induction false} RunKeeps(
    cfg: Config, payload: string, residue: string, slips: nat, run: seq<System>, steps: seq<Step>, i: nat)
    requires IsRun(cfg, payload, residue, slips, run, steps) && i < |run|
    requires |residue| <= INPUT_BUFFER_BYTES - cfg.margin
    requires Ceiling(cfg, slips) + |ClosingByte(run[i])| <= INPUT_BUFFER_BYTES
    requires slips == 0 || InstructionsWithin(payload, cfg.chunk)
    ensures Inv(cfg, payload, residue, slips, run[i])
  {
    hide Inv, Moves;
    if i == 0 {
      StartKeeps(cfg, payload, residue, slips, run[0]);
    } else {
      RunStep(cfg, payload, residue, slips, run, steps, i);
      StaysClosed(cfg, payload, run[i - 1], steps[i - 1], run[i]);
      RunKeeps(cfg, payload, residue, slips, run, steps, i - 1);
      RunStepKeeps(cfg, payload, residue, slips, run, steps, i);
    }
  }

  /** Buffer safety.  With at most `slips` stale replies, a margin of `slips` chunks and
      instructions no longer than a chunk, no interleaving loses a byte or latches error 16,
      and buffered plus in-flight bytes stay within the buffer; everything popped, buffered and
      in flight is exactly what the host wrote.  With fresh readings (`slips == 0`) any
      instruction sizes will do and the safety margin itself is never touched, except for the
      one terminator that closes a cancelled stream and needs one byte of margin of its own. */
  lemma NoOverflow(cfg: Config, payload: string, residue: string, slips: nat, s: System)
    requires Reachable(cfg, payload, residue, slips, s)
    requires |residue| <= INPUT_BUFFER_BYTES - cfg.margin
    requires slips * cfg.chunk + |ClosingByte(s)| <= cfg.margin
    requires slips == 0 || InstructionsWithin(payload, cfg.chunk)
    ensures s.sent <= |payload| && s.arrived <= |Wire(payload, s)|
    ensures s.lost == 0 && !s.latched
    ensures |s.buffer| + |Wire(payload, s)[s.arrived..]|
      <= INPUT_BUFFER_BYTES - (cfg.margin - slips * cfg.chunk) + |ClosingByte(s)|
    ensures s.done + s.buffer + Wire(payload, s)[s.arrived..] == residue + Wire(payload, s)
  {
    var run: seq<System>, steps: seq<Step> :|
      IsRun(cfg, payload, residue, slips, run, steps) && run[|run| - 1] == s;
    RunKeeps(cfg, payload, residue, slips, run, steps, |run| - 1);
    WireAddsUp(residue, Wire(payload, s), s.done, s.buffer, s.arrived);
  }

  lemma WireAddsUp(residue: string, wire: string, done: string, buffer: string, arrived: nat)
    requires arrived <= |wire| && done + buffer == residue + wire[..arrived]
    ensures done + buffer + wire[arrived..] == residue + wire
    ensures |buffer| + |wire[arrived..]| == |residue| + |wire| - |done|
  {
    assert wire == wire[..arrived] + wire[arrived..];
    assert (residue + wire[..arrived]) + wire[arrived..] == residue + wire;
    assert |done + buffer| == |residue| + arrived;
  }
}
