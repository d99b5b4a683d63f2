/** How many stale replies a margin pays for. */
module LinkLimit {
  // Exactly `margin / chunk` of them.

  import opened Protocol
  import opened Text
  import opened Chunking
  import opened Streamer
  import opened Link

  /** No uncancelled interleaving with at most `slips` stale replies ever loses a byte. */
  ghost predicate NeverLoses(cfg: Config, slips: nat) {
    forall payload: string, residue: string, s: System ::
      Reachable(cfg, payload, residue, slips, s) && !s.closed
      && |residue| <= INPUT_BUFFER_BYTES - cfg.margin && InstructionsWithin(payload, cfg.chunk)
      ==> s.lost == 0
  }

  /** Nor does a cancelled one. */
  ghost predicate NeverLosesOnCancel(cfg: Config, slips: nat) {
    forall payload: string, residue: string, s: System ::
      Reachable(cfg, payload, residue, slips, s)
      && |residue| <= INPUT_BUFFER_BYTES - cfg.margin && InstructionsWithin(payload, cfg.chunk)
      ==> s.lost == 0
  }

  function Repeat<T>(x: T, n: nat): (r: seq<T>)
    ensures |r| == n && forall i :: 0 <= i < n ==> r[i] == x
  {
    seq(n, _ => x)
  }

  /** The shortest instructions there are: the streamer then fills every window exactly. */
  lemma TerminatorsOnly(n: nat, bound: nat)
    requires bound >= 1
    ensures InstructionsWithin(Repeat(';', n), bound)
  {
    var payload := Repeat(';', n);
    forall i | 0 <= i < n ensures InstructionLength(payload, i) == 1 && Boundary(payload, i + 1) {
      assert Find(payload, ';', i, n) == i;
    }
  }

  lemma FullWindow(cfg: Config, n: nat, sent: nat)
    requires cfg.chunk > 0 && sent + cfg.chunk <= n
    ensures Decide(cfg, Repeat(';', n), sent, cfg.margin + cfg.chunk) == Cut(sent + cfg.chunk)
  {
    assert Boundary(Repeat(';', n), sent + cfg.chunk);
  }

  // ---- queries pile up ----------------------------------------------------------------

  /** `late + 1` queries are out and the host waits for the first time: `late` of their replies
      will come too late. */
  function Unanswered(late: nat, residue: string): System {
    System(0, 0, residue, "", 0, false, Repeat(Query(Space, 0), late + 1), [], Asked(Space), 0, false)
  }

  lemma FirstAsked(cfg: Config, payload: string, residue: string, slips: nat)
    requires payload != "" && |residue| <= INPUT_BUFFER_BYTES
    ensures Reachable(cfg, payload, residue, slips, Unanswered(0, residue))
  {
    var s := System(0, 0, residue, "", 0, false, [], [], Head, 0, false);
    var t := Unanswered(0, residue);
    assert IsRun(cfg, payload, residue, slips, [s], []);
    assert [s][|[s]| - 1] == s;
    assert t.queries == s.queries + [Query(Space, 0)];
    assert IsAsk(payload, s, Space, t);
    ReachableStep(cfg, payload, residue, slips, s, Ask(Space), t);
  }

  /** The query is repeated once; of all outstanding ones the oldest is answered, the buffer being
      too full for a write; the host waits and asks again: one more reply is late. */
  lemma OneMoreLate(cfg: Config, payload: string, residue: string, slips: nat, late: nat)
    requires payload != "" && |residue| + cfg.margin == INPUT_BUFFER_BYTES && cfg.retries >= 1 && late + 1 <= slips
    requires Reachable(cfg, payload, residue, slips, Unanswered(late, residue))
    ensures Reachable(cfg, payload, residue, slips, Unanswered(late + 1, residue))
  {
    var q := Query(Space, 0);
    var s0 := Unanswered(late, residue);
    var s1 := s0.(queries := Repeat(q, late + 2), tries := 1);
    assert s1.queries == s0.queries + [q];
    ReachableStep(cfg, payload, residue, slips, s0, Retry, s1);
    var s2 := s1.(queries := Repeat(q, late + 1), answers := [Answer(Space, 0, cfg.margin)]);
    OldestAnswered(cfg, payload, residue, late);
    ReachableStep(cfg, payload, residue, slips, s1, Read(0, 1), s2);
    var s3 := s2.(answers := [], phase := Head);
    assert s2.answers[1..] == [];
    ReachableStep(cfg, payload, residue, slips, s2, Take, s3);
    var s4 := Unanswered(late + 1, residue);
    assert s4.queries == s3.queries + [q];
    ReachableStep(cfg, payload, residue, slips, s3, Ask(Space), s4);
  }

  lemma OldestAnswered(cfg: Config, payload: string, residue: string, late: nat)
    requires |residue| + cfg.margin == INPUT_BUFFER_BYTES
    ensures var q := Query(Space, 0);
      var s := Unanswered(late, residue).(queries := Repeat(q, late + 2), tries := 1);
      Sane(payload, s) && IsRead(payload, s, 0, 1,
        s.(queries := Repeat(q, late + 1), answers := [Answer(Space, 0, cfg.margin)]))
  {
    var q := Query(Space, 0);
    var s := Unanswered(late, residue).(queries := Repeat(q, late + 2), tries := 1);
    assert s.queries[..1] == Repeat(q, 1) && s.queries[1..] == Repeat(q, late + 1);
    RepliesRepeat(1, cfg.margin);
    assert Repeat(Answer(Space, 0, cfg.margin), 1) == [Answer(Space, 0, cfg.margin)];
    assert residue + Wire(payload, s)[0..0] == residue;
    assert s.answers + [Answer(Space, 0, cfg.margin)] == [Answer(Space, 0, cfg.margin)];
  }

  lemma {:induction false} LatePileUp(cfg: Config, payload: string, residue: string, slips: nat, late: nat)
    requires payload != "" && |residue| + cfg.margin == INPUT_BUFFER_BYTES && cfg.retries >= 1 && late <= slips
    ensures Reachable(cfg, payload, residue, slips, Unanswered(late, residue))
  {
    if late == 0 {
      FirstAsked(cfg, payload, residue, slips);
    } else {
      LatePileUp(cfg, payload, residue, slips, late - 1);
      OneMoreLate(cfg, payload, residue, slips, late - 1);
    }
  }

  lemma {:induction false} RepliesRepeat(n: nat, free: nat)
    ensures Replies(Repeat(Query(Space, 0), n), free, false) == Repeat(Answer(Space, 0, free), n)
  {
    if n > 0 {
      assert Repeat(Query(Space, 0), n)[1..] == Repeat(Query(Space, 0), n - 1);
      RepliesRepeat(n - 1, free);
    }
  }

  // ---- and are spent ------------------------------------------------------------------

  /** The queries sent behind the first `m` writes. */
  function QueriesBehind(chunk: nat, m: nat): (r: seq<Query>)
    ensures |r| == m && forall i :: 0 <= i < m ==> r[i] == Query(Space, (i + 1) * chunk)
  {
    seq(m, i requires 0 <= i < m => Query(Space, (i + 1) * chunk))
  }

  /** A residue that fills the buffer up to the margin, and a payload of one byte more than
      `slips + 1` chunks. */
  ghost predicate Tight(cfg: Config, slips: nat, payload: string, residue: string) {
    && cfg.chunk > 0 && payload == Repeat(';', (slips + 1) * cfg.chunk + 1)
    && |residue| + cfg.margin == INPUT_BUFFER_BYTES && cfg.chunk <= |residue|
  }

  /** After one chunk has been popped and `m` writes made, each on the same stale reading. */
  function Spent(cfg: Config, slips: nat, residue: string, m: nat): System
    requires m <= slips && cfg.chunk <= |residue|
  {
    System(m * cfg.chunk, 0, residue[cfg.chunk..], residue[..cfg.chunk], 0, false, QueriesBehind(cfg.chunk, m),
           Repeat(Answer(Space, 0, cfg.margin + cfg.chunk), slips + 1 - m), Asked(Space), 0, false)
  }

  /** The same just after the m-th write. */
  function Wrote(cfg: Config, slips: nat, residue: string, m: nat): System
    requires 1 <= m <= slips + 1 && cfg.chunk <= |residue|
  {
    System(m * cfg.chunk, 0, residue[cfg.chunk..], residue[..cfg.chunk], 0, false, QueriesBehind(cfg.chunk, m - 1),
           Repeat(Answer(Space, 0, cfg.margin + cfg.chunk), slips + 1 - m), Head, 0, false)
  }

  /** One chunk is executed; then all queries are answered at once, and there is room. */
  lemma AnswerAll(cfg: Config, payload: string, residue: string, slips: nat)
    requires Tight(cfg, slips, payload, residue)
    ensures var s := Unanswered(slips, residue).(buffer := residue[cfg.chunk..], done := residue[..cfg.chunk]);
      var t := Spent(cfg, slips, residue, 0);
      Sane(payload, s) && IsRead(payload, s, 0, slips + 1, t) && Sane(payload, t) && Slipped(t) <= slips
  {
    var s := Unanswered(slips, residue).(buffer := residue[cfg.chunk..], done := residue[..cfg.chunk]);
    var room := Repeat(Answer(Space, 0, cfg.margin + cfg.chunk), slips + 1);
    RepliesRepeat(slips + 1, cfg.margin + cfg.chunk);
    assert s.queries[..slips + 1] == Repeat(Query(Space, 0), slips + 1);
    assert s.buffer + Wire(payload, s)[0..0] == s.buffer;
    assert s.queries[slips + 1..] == [] == QueriesBehind(cfg.chunk, 0);
    assert [] + room == room;
  }

  lemma FirstSpent(cfg: Config, payload: string, residue: string, slips: nat)
    requires Tight(cfg, slips, payload, residue) && cfg.retries >= 1
    ensures Reachable(cfg, payload, residue, slips, Spent(cfg, slips, residue, 0))
  {
    LatePileUp(cfg, payload, residue, slips, slips);
    var s := Unanswered(slips, residue);
    var t := s.(buffer := residue[cfg.chunk..], done := residue[..cfg.chunk]);
    assert "" + residue[..cfg.chunk] == residue[..cfg.chunk];
    ReachableStep(cfg, payload, residue, slips, s, Pop(cfg.chunk), t);
    AnswerAll(cfg, payload, residue, slips);
    ReachableStep(cfg, payload, residue, slips, t, Read(0, slips + 1), Spent(cfg, slips, residue, 0));
  }

  lemma TakeStale(cfg: Config, payload: string, residue: string, slips: nat, m: nat)
    requires Tight(cfg, slips, payload, residue) && m <= slips
    ensures var s := Spent(cfg, slips, residue, m);
      var t := Wrote(cfg, slips, residue, m + 1);
      Sane(payload, s) && IsTakeSpace(cfg, payload, s, t) && Sane(payload, t) && Slipped(t) <= slips
  {
    assert m * cfg.chunk + cfg.chunk == (m + 1) * cfg.chunk <= (slips + 1) * cfg.chunk;
    FullWindow(cfg, |payload|, m * cfg.chunk);
    var s := Spent(cfg, slips, residue, m);
    assert s.answers[1..] == Repeat(Answer(Space, 0, cfg.margin + cfg.chunk), slips - m);
  }

  lemma AskAgain(cfg: Config, payload: string, residue: string, slips: nat, m: nat)
    requires Tight(cfg, slips, payload, residue) && 1 <= m <= slips
    ensures var s := Wrote(cfg, slips, residue, m);
      var t := Spent(cfg, slips, residue, m);
      Sane(payload, s) && IsAsk(payload, s, Space, t) && Sane(payload, t) && Slipped(t) <= slips
  {
    assert m * cfg.chunk < m * cfg.chunk + cfg.chunk == (m + 1) * cfg.chunk <= (slips + 1) * cfg.chunk;
    assert QueriesBehind(cfg.chunk, m - 1) + [Query(Space, m * cfg.chunk)] == QueriesBehind(cfg.chunk, m);
  }

  lemma {:induction false} SpendStale(cfg: Config, payload: string, residue: string, slips: nat, m: nat)
    requires Tight(cfg, slips, payload, residue) && cfg.retries >= 1 && m <= slips
    ensures Reachable(cfg, payload, residue, slips, Wrote(cfg, slips, residue, m + 1))
  {
    hide Moves, IsAsk, IsTakeSpace, Sane, Spent, Wrote;
    var s := Spent(cfg, slips, residue, m);
    if m == 0 {
      FirstSpent(cfg, payload, residue, slips);
    } else {
      SpendStale(cfg, payload, residue, slips, m - 1);
      AskAgain(cfg, payload, residue, slips, m);
      AskMoves(cfg, payload, Wrote(cfg, slips, residue, m), s);
      ReachableStep(cfg, payload, residue, slips, Wrote(cfg, slips, residue, m), Ask(Space), s);
    }
    TakeStale(cfg, payload, residue, slips, m);
    TakeMoves(cfg, payload, s, Wrote(cfg, slips, residue, m + 1));
    ReachableStep(cfg, payload, residue, slips, s, Take, Wrote(cfg, slips, residue, m + 1));
  }

  lemma AskMoves(cfg: Config, payload: string, s: System, t: System)
    requires Sane(payload, s) && IsAsk(payload, s, Space, t)
    ensures Moves(cfg, payload, s, Ask(Space), t)
  {
  }

  lemma TakeMoves(cfg: Config, payload: string, s: System, t: System)
    requires Sane(payload, s) && IsTakeSpace(cfg, payload, s, t)
    ensures Moves(cfg, payload, s, Take, t)
  {
  }

  // ---- too much -----------------------------------------------------------------------

  lemma BehindInTime(chunk: nat, m: nat)
    ensures forall i :: 0 <= i < m ==> QueriesBehind(chunk, m)[i].at <= m * chunk
  {
    forall i | 0 <= i < m ensures QueriesBehind(chunk, m)[i].at <= m * chunk {
      assert (i + 1) * chunk <= m * chunk;
    }
  }

  /** After the last write, cancelled or not. */
  function Last(cfg: Config, slips: nat, residue: string, cancelled: bool): System
    requires cfg.chunk <= |residue|
  {
    var s := Wrote(cfg, slips, residue, slips + 1);
    if cancelled then s.(closed := true, phase := Stopped) else s
  }

  lemma ReachLast(cfg: Config, payload: string, residue: string, slips: nat, cancelled: bool)
    requires Tight(cfg, slips, payload, residue) && cfg.retries >= 1
    ensures Reachable(cfg, payload, residue, slips, Last(cfg, slips, residue, cancelled))
    ensures Sane(payload, Last(cfg, slips, residue, cancelled))
  {
    SpendStale(cfg, payload, residue, slips, slips);
    TakeStale(cfg, payload, residue, slips, slips);
    if cancelled {
      var s, t := Wrote(cfg, slips, residue, slips + 1), Last(cfg, slips, residue, true);
      assert IsCancel(payload, s, t);
      ReachableStep(cfg, payload, residue, slips, s, Cancel, t);
    }
  }

  /** The plotter reads everything that was written in one block: some of it does not fit. */
  lemma ReadTooMuch(cfg: Config, payload: string, residue: string, slips: nat, cancelled: bool) returns (t: System)
    requires Tight(cfg, slips, payload, residue) && Sane(payload, Last(cfg, slips, residue, cancelled))
    requires cfg.margin < slips * cfg.chunk + if cancelled then 1 else 0
    ensures var s := Last(cfg, slips, residue, cancelled);
      && IsRead(payload, s, |Wire(payload, s)|, slips, t)
      && Sane(payload, t) && Slipped(t) <= slips && t.lost > 0 && t.closed == cancelled
  {
    var s := Last(cfg, slips, residue, cancelled);
    var wire := Wire(payload, s);
    assert |wire| == slips * cfg.chunk + cfg.chunk + (if cancelled then 1 else 0);
    var take := cfg.margin + cfg.chunk;
    var buffer := s.buffer + wire[0..take];
    var heard := s.queries[..slips];
    RepliesShape(heard, INPUT_BUFFER_BYTES - |buffer|, true);
    BehindInTime(cfg.chunk, slips);
    t := s.(arrived := |wire|, buffer := buffer, lost := |wire| - take, latched := !AsksError(heard),
            queries := s.queries[slips..], answers := s.answers + Replies(heard, INPUT_BUFFER_BYTES - |buffer|, true));
  }

  /** One stale reading too many overruns the buffer; on a cancel one byte less is enough. */
  lemma Overrun(cfg: Config, slips: nat, cancelled: bool) returns (payload: string, residue: string, t: System)
    requires cfg.chunk > 0 && cfg.margin + cfg.chunk <= INPUT_BUFFER_BYTES && cfg.retries >= 1
    requires cfg.margin < slips * cfg.chunk + if cancelled then 1 else 0
    ensures Reachable(cfg, payload, residue, slips, t) && t.lost > 0 && t.closed == cancelled
    ensures |residue| <= INPUT_BUFFER_BYTES - cfg.margin && InstructionsWithin(payload, cfg.chunk)
  {
    payload := Repeat(';', (slips + 1) * cfg.chunk + 1);
    residue := Repeat(';', INPUT_BUFFER_BYTES - cfg.margin);
    TerminatorsOnly((slips + 1) * cfg.chunk + 1, cfg.chunk);
    ReachLast(cfg, payload, residue, slips, cancelled);
    t := ReadTooMuch(cfg, payload, residue, slips, cancelled);
    var s := Last(cfg, slips, residue, cancelled);
    ReachableStep(cfg, payload, residue, slips, s, Read(|Wire(payload, s)|, slips), t);
  }

  /** The margin is exact, as soon as a query may be repeated at all: stale replies are harmless
      if and only if it covers that many chunks, and on a cancel if and only if it covers one
      byte more. */
  lemma MarginIsExact(cfg: Config, slips: nat)
    requires cfg.chunk > 0 && cfg.margin + cfg.chunk <= INPUT_BUFFER_BYTES && cfg.retries >= 1
    ensures NeverLoses(cfg, slips) <==> slips * cfg.chunk <= cfg.margin
    ensures NeverLosesOnCancel(cfg, slips) <==> slips * cfg.chunk < cfg.margin
  {
    MarginSuffices(cfg, slips);
    if slips * cfg.chunk > cfg.margin {
      var payload, residue, t := Overrun(cfg, slips, false);
    }
    if slips * cfg.chunk >= cfg.margin {
      var payload, residue, t := Overrun(cfg, slips, true);
    }
  }

  lemma MarginSuffices(cfg: Config, slips: nat)
    ensures slips * cfg.chunk <= cfg.margin ==> NeverLoses(cfg, slips)
    ensures slips * cfg.chunk < cfg.margin ==> NeverLosesOnCancel(cfg, slips)
  {
    forall payload: string, residue: string, s: System |
      Reachable(cfg, payload, residue, slips, s)
      && |residue| <= INPUT_BUFFER_BYTES - cfg.margin && InstructionsWithin(payload, cfg.chunk)
      && slips * cfg.chunk + |ClosingByte(s)| <= cfg.margin
      ensures s.lost == 0
    {
      NoOverflow(cfg, payload, residue, slips, s);
    }
  }

  /** The shipped settings: one stale reply is safe, cancelled or not; two are not. */
  lemma ShippedMargin(stallPolls: nat)
    ensures var cfg := Config(320, 256, 3, stallPolls);
      NeverLosesOnCancel(cfg, 0) && NeverLosesOnCancel(cfg, 1) && !NeverLoses(cfg, 2)
  {
    var cfg := Config(320, 256, 3, stallPolls);
    MarginIsExact(cfg, 0);
    MarginIsExact(cfg, 1);
    MarginIsExact(cfg, 2);
  }
}
