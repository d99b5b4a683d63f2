/** The transport's own sender: whole writes over a port that takes what it likes, and bursts
    that wait for room in the plotter's buffer. */
module Transport {
  import opened Protocol
  import opened Text
  import opened Chunking

  datatype Settings = Settings(margin: nat, chunk: nat, stallPolls: nat, patience: nat)

  /** What one call of the port's write gives; a port never takes more than it is offered. */
  datatype PortWrite = Took(n: nat) | TimedOut | PortError

  datatype Fault =
    | WriteTimedOut | WriteStalled | Disconnected | QueryFailed | Overflow | TooLong(bytes: nat) | NeverFreed

  /** The n-th write, free-space query and error query; None is a query that raised. */
  datatype Env = Env(writes: nat -> PortWrite, space: nat -> Option<nat>, errors: nat -> Option<int>)

  /** A burst and the free-space reading it was cut for. */
  datatype Burst = Burst(text: string, free: nat)

  function Payload(bursts: seq<Burst>): string { if bursts == [] then "" else bursts[0].text + Payload(bursts[1..]) }

  lemma {:induction false} PayloadSnoc(bursts: seq<Burst>, b: Burst)
    ensures Payload(bursts + [b]) == Payload(bursts) + b.text
  {
    if bursts == [] {
      assert Payload([b]) == b.text + Payload([b][1..]);
    } else {
      assert (bursts + [b])[1..] == bursts[1..] + [b];
      PayloadSnoc(bursts[1..], b);
    }
  }

  /** Every burst fits its reading, is no longer than a chunk, and ends at an instruction or at
      the end of the data. */
  ghost predicate Polite(bursts: seq<Burst>, cfg: Settings, data: string) {
    && (forall i :: 0 <= i < |bursts| ==> PoliteBurst(bursts[i], cfg))
    && (forall i :: 0 <= i < |bursts| ==> EndsWell(bursts, i, data))
  }

  ghost predicate EndsWell(bursts: seq<Burst>, i: nat, data: string)
    requires i < |bursts|
  {
    var text := bursts[i].text;
    text != "" && (text[|text| - 1] == ';' || Payload(bursts[..i + 1]) == data)
  }

  ghost predicate PoliteBurst(b: Burst, cfg: Settings) {
    b.text != "" && |b.text| <= cfg.chunk && |b.text| + cfg.margin <= b.free
  }

  lemma PoliteSnoc(bursts: seq<Burst>, b: Burst, cfg: Settings, data: string)
    requires Polite(bursts, cfg, data) && PoliteBurst(b, cfg)
    requires b.text[|b.text| - 1] == ';' || Payload(bursts + [b]) == data
    ensures Polite(bursts + [b], cfg, data)
  {
    var all := bursts + [b];
    forall i | 0 <= i < |all| ensures EndsWell(all, i, data) {
      if i < |bursts| {
        assert EndsWell(bursts, i, data) && all[i] == bursts[i] && all[..i + 1] == bursts[..i + 1];
      } else {
        assert all[..i + 1] == all;
      }
    }
  }

  /** The next burst of a run that has sent `data[..pos]`. */
  lemma NextBurst(bursts: seq<Burst>, cfg: Settings, data: string, pos: nat, next: nat, free: nat)
    requires pos < next <= |data| && (next == |data| || data[next - 1] == ';')
    requires Payload(bursts) == data[..pos] && Polite(bursts, cfg, data)
    requires next - pos <= cfg.chunk && next - pos + cfg.margin <= free
    ensures var all := bursts + [Burst(data[pos..next], free)];
      Payload(all) == data[..next] && Polite(all, cfg, data)
  {
    var b := Burst(data[pos..next], free);
    PayloadSnoc(bursts, b);
    assert data[..next] == data[..pos] + data[pos..next];
    assert next == |data| ==> data[..next] == data;
    PoliteSnoc(bursts, b, cfg, data);
  }

  lemma StillPrefix(before: string, wire: string, data: string, pos: nat, next: nat)
    requires pos <= next <= |data|
    requires before + data[..pos] <= wire <= before + data[..pos] + data[pos..next]
    ensures before <= wire <= before + data
    ensures wire == before + data[..pos] + data[pos..next] ==> wire == before + data[..next]
  {
    assert before + data == (before + data[..pos] + data[pos..next]) + data[next..];
    assert data[..next] == data[..pos] + data[pos..next];
  }

  /** The line carries what was there before and the first `pos` bytes of the data. */
  ghost predicate Carried(before: string, wire: string, data: string, pos: nat) {
    pos <= |data| && wire == before + data[..pos]
  }

  ghost predicate CarriesPrefix(before: string, wire: string, data: string) { before <= wire <= before + data }

  lemma CarriedIsPrefix(before: string, wire: string, data: string, pos: nat)
    requires Carried(before, wire, data, pos)
    ensures CarriesPrefix(before, wire, data)
  {
    assert data == data[..pos] + data[pos..];
    assert before + data == (before + data[..pos]) + data[pos..];
  }

  /** The i-th error query was readable and reported no overflow. */
  predicate Clear(env: Env, i: nat) { env.errors(i).Some? && env.errors(i).value != OVERFLOW_ERROR }

  /** How many of the writes from `first` on, up to `last`, took nothing. */
  function EmptyWrites(env: Env, first: nat, last: nat): nat
    requires first <= last
    decreases last - first
  {
    if first == last then 0 else EmptyWrites(env, first, last - 1) + if env.writes(last - 1) == Took(0) then 1 else 0
  }

  /** What the port did in the writes from `first` up to `last` to make a write end this way: all of
      them took something or nothing, the patience was not used up, and on a fault the last one is
      the reason. */
  ghost predicate WriteEnds(env: Env, patience: nat, fault: Option<Fault>, first: nat, last: nat) {
    && first <= last
    && (forall i :: first <= i < last - 1 ==> env.writes(i).Took?)
    && match fault
       case None => (first < last ==> env.writes(last - 1).Took?) && EmptyWrites(env, first, last) <= patience
       case Some(WriteTimedOut) => first < last && env.writes(last - 1).TimedOut?
       case Some(Disconnected) => first < last && env.writes(last - 1).PortError?
       case Some(WriteStalled) =>
         first < last && env.writes(last - 1) == Took(0) && EmptyWrites(env, first, last) == patience + 1
       case Some(_) => false
  }

  /** The instruction that starts at `pos` is `n` bytes long, with its terminator if it has one. */
  ghost predicate InstructionIs(data: string, pos: nat, n: nat) {
    && 0 < n && pos + n <= |data| && (forall i :: pos <= i < pos + n - 1 ==> data[i] != ';')
    && (pos + n == |data| || data[pos + n - 1] == ';')
  }

  /** The room a reading leaves above the margin, at most one chunk. */
  function Room(cfg: Settings, free: nat): int {
    if free - cfg.margin < cfg.chunk then free - cfg.margin else cfg.chunk
  }

  /** Every reading from `first` up to `last` left less room than `n` bytes. */
  ghost predicate TooLittleRoom(cfg: Settings, env: Env, n: nat, first: int, last: nat) {
    forall i: nat :: first <= i < last ==> env.space(i).Some? && Room(cfg, env.space(i).value) < n
  }

  /** Behind `pos` bytes of the data comes an instruction of `n` bytes. */
  ghost predicate StandsBefore(before: string, wire: string, data: string, pos: nat, n: nat) {
    Carried(before, wire, data, pos) && InstructionIs(data, pos, n)
  }

  /** The stop behind a window that is too small is the end of the first instruction. */
  lemma FirstInstruction(data: string, pos: nat, room: int)
    requires pos < |data| && NextStop(data, pos, room) - pos > room
    ensures InstructionIs(data, pos, NextStop(data, pos, room) - pos)
  {
    NextStopIsGood(data, pos, if room < 0 then 0 else room);
    var next := NextStop(data, pos, room);
    forall i | pos <= i < next - 1 ensures data[i] != ';' {
      assert !Boundary(data, i + 1);
    }
  }

  lemma InstructionIsUnique(data: string, pos: nat, m: nat, n: nat)
    requires InstructionIs(data, pos, m) && InstructionIs(data, pos, n)
    ensures m == n
  {
  }

  lemma NoReadings(cfg: Settings, env: Env, n: nat, at: nat)
    ensures TooLittleRoom(cfg, env, n, at, at)
  {
  }

  lemma OneMoreReading(cfg: Settings, env: Env, n: nat, first: int, last: nat)
    requires TooLittleRoom(cfg, env, n, first, last)
    requires env.space(last).Some? && Room(cfg, env.space(last).value) < n
    ensures TooLittleRoom(cfg, env, n, first, last + 1)
  {
  }

  class SerialTransport {
    const cfg: Settings
    const env: Env
    var wire: string
    var wrote: nat
    var asked: nat
    var checked: nat

    constructor (cfg: Settings, env: Env)
      ensures this.cfg == cfg && this.env == env && wire == ""
    {
      this.cfg, this.env, wire, wrote, asked, checked := cfg, env, "", 0, 0, 0;
    }

    /** Write everything, however the port cuts it up.  Success puts exactly the data on the
        line; a fault leaves a prefix of it there, and names what the port did. */
    method Write(data: string) returns (fault: Option<Fault>)
      modifies this`wire, this`wrote
      ensures fault.None? ==> wire == old(wire) + data
      ensures old(wire) <= wire <= old(wire) + data
      ensures WriteEnds(env, cfg.patience, fault, old(wrote), wrote)
    {
      var sent: nat, idle: nat := 0, 0;
      assert data[..0] == "" && old(wire) + "" == old(wire);
      while sent < |data|
        invariant sent <= |data| && idle <= cfg.patience
        invariant wire == old(wire) + data[..sent]
        invariant old(wrote) <= wrote && idle == EmptyWrites(env, old(wrote), wrote)
        invariant forall i :: old(wrote) <= i < wrote ==> env.writes(i).Took?
        decreases |data| - sent, cfg.patience - idle
      {
        var got := env.writes(wrote);
        wrote := wrote + 1;
        match got {
          case TimedOut => return Some(WriteTimedOut);
          case PortError => return Some(Disconnected);
          case Took(n) =>
            if n == 0 {
              if idle == cfg.patience {
                return Some(WriteStalled);
              }
              idle := idle + 1;
            } else {
              var k := if n < |data| - sent then n else |data| - sent;
              assert data[..sent + k] == data[..sent] + data[sent..sent + k];
              wire := wire + data[sent..sent + k];
              sent := sent + k;
            }
        }
      }
      assert data[..sent] == data;
      fault := None;
    }

    /** A look at the error register; it may fail or report an overflow. */
    method CheckErrors() returns (fault: Option<Fault>)
      modifies this`checked
      ensures checked == old(checked) + 1
      ensures match env.errors(old(checked))
        case None => fault == Some(QueryFailed)
        case Some(code) => fault == if code == OVERFLOW_ERROR then Some(Overflow) else None
    {
      var code := env.errors(checked);
      checked := checked + 1;
      fault := if code.None? then Some(QueryFailed) else if code.value == OVERFLOW_ERROR then Some(Overflow) else None;
    }

    /** Room for a burst, from a fresh reading. */
    method AskRoom() returns (free: Option<nat>, room: int)
      modifies this`asked
      ensures asked == old(asked) + 1 && free == env.space(old(asked))
      ensures free.Some? ==> room == Room(cfg, free.value)
    {
      free, room := env.space(asked), 0;
      asked := asked + 1;
      if free.Some? {
        room := if free.value - cfg.margin < cfg.chunk then free.value - cfg.margin else cfg.chunk;
      }
    }

    /** One burst behind what is already on the line. */
    method WriteBurst(ghost before: string, data: string, pos: nat, next: nat) returns (fault: Option<Fault>)
      requires Carried(before, wire, data, pos) && pos <= next <= |data|
      modifies this`wire, this`wrote
      ensures CarriesPrefix(before, wire, data)
      ensures fault.None? ==> Carried(before, wire, data, next)
      ensures WriteEnds(env, cfg.patience, fault, old(wrote), wrote)
    {
      fault := Write(data[pos..next]);
      StillPrefix(before, wire, data, pos, next);
    }

    /** Where a run of bursts has come to.  Each reading led to a burst or to a look at the error
        register; the last `waited` readings left too little room for the instruction ahead. */
    ghost predicate Sending(before: string, looked: nat, polled: nat, data: string, pos: nat, waited: nat,
        bursts: seq<Burst>)
      reads this
    {
      && Carried(before, wire, data, pos) && Payload(bursts) == data[..pos] && Polite(bursts, cfg, data)
      && looked <= checked && (forall i :: looked <= i < checked ==> Clear(env, i))
      && checked - looked == asked - polled - |bursts| && polled + waited <= asked
      && (waited > 0 ==> Cramped(data, pos, waited))
    }

    /** The instruction at `pos` could fit the buffer, and the last `waited` readings left no room. */
    ghost predicate Cramped(data: string, pos: nat, waited: nat)
      reads this
    {
      exists n: nat :: InstructionIs(data, pos, n) && n <= INPUT_BUFFER_BYTES - cfg.margin
                  && TooLittleRoom(cfg, env, n, asked - waited, asked)
    }

    /** One turn of the loop: a burst, a refusal, or a look at the error register and a wait. */
    method Turn(ghost before: string, ghost looked: nat, ghost polled: nat, data: string, pos: nat, waited: nat,
        ghost bursts: seq<Burst>)
      returns (fault: Option<Fault>, pos': nat, waited': nat, ghost bursts': seq<Burst>)
      requires pos < |data| && (waited == 0 || waited < cfg.stallPolls)
      requires Sending(before, looked, polled, data, pos, waited, bursts)
      modifies this
      ensures CarriesPrefix(before, wire, data) && Polite(bursts', cfg, data)
      ensures fault.None? ==> pos' <= |data| && Sending(before, looked, polled, data, pos', waited', bursts')
      ensures fault.None? ==> (pos' > pos && waited' == 0) || (pos' == pos && waited' == waited + 1 < cfg.stallPolls)
      ensures fault.Some? ==> Explained(before, data, fault.value, looked, polled)
    {
      hide Polite, Payload, NextStop, Carried, CarriesPrefix, InstructionIs, TooLittleRoom, WriteEnds, PoliteBurst;
      pos', waited', bursts' := pos, waited, bursts;
      CarriedIsPrefix(before, wire, data, pos);
      var free, room := AskRoom();
      if free.None? {
        return Some(QueryFailed), pos', waited', bursts';
      }
      var next := NextStop(data, pos, room);
      if next - pos <= room {
        ghost var first := wrote;
        fault := WriteBurst(before, data, pos, next);
        assert fault.Some? ==> WriteEnds(env, cfg.patience, Some(fault.value), first, wrote);
        if fault.None? {
          NextBurst(bursts, cfg, data, pos, next, free.value);
          bursts' := bursts + [Burst(data[pos..next], free.value)];
          pos', waited' := next, 0;
        }
      } else if next - pos > INPUT_BUFFER_BYTES - cfg.margin {
        FirstInstruction(data, pos, room);
        assert StandsBefore(before, wire, data, pos, next - pos);
        fault := Some(TooLong(next - pos));
      } else {
        FirstInstruction(data, pos, room);
        if waited > 0 {
          ghost var n: nat :| InstructionIs(data, pos, n) && n <= INPUT_BUFFER_BYTES - cfg.margin
                              && TooLittleRoom(cfg, env, n, asked - 1 - waited, asked - 1);
          InstructionIsUnique(data, pos, n, next - pos);
        } else {
          NoReadings(cfg, env, next - pos, asked - 1);
        }
        OneMoreReading(cfg, env, next - pos, asked - 1 - waited, asked - 1);
        fault := CheckErrors();
        if fault.None? {
          waited' := waited + 1;
          if waited' >= cfg.stallPolls {
            assert StandsBefore(before, wire, data, pos, next - pos);
            fault := Some(NeverFreed);
          }
        }
      }
    }

    /** What the port and the plotter did to end a send with this fault. */
    ghost predicate Explained(before: string, data: string, fault: Fault, looked: nat, polled: nat)
      reads this
    {
      match fault
      case Overflow => checked > looked && env.errors(checked - 1) == Some(OVERFLOW_ERROR)
      case QueryFailed =>
        || (asked > polled && env.space(asked - 1).None?)
        || (checked > looked && env.errors(checked - 1).None?)
      case TooLong(n) =>
        n > INPUT_BUFFER_BYTES - cfg.margin && exists pos: nat :: StandsBefore(before, wire, data, pos, n)
      case NeverFreed =>
        var turns := if cfg.stallPolls == 0 then 1 else cfg.stallPolls;
        && asked - turns >= polled
        && exists pos: nat, n: nat :: StandsBefore(before, wire, data, pos, n) && n <= INPUT_BUFFER_BYTES - cfg.margin
                            && TooLittleRoom(cfg, env, n, asked - turns, asked)
      case _ => exists first: nat :: WriteEnds(env, cfg.patience, Some(fault), first, wrote)
    }

    /** Send in bursts, each no longer than the buffer has room for above the margin.  A normal
        return means exactly the data went out and every error query, the final one included,
        was readable and reported no overflow, with one query for every wait and the final one; a
        fault is what the port or the plotter did.  The bursts sent on the way were all polite, and
        whatever happens the line carries a prefix of the data. */
    method SendSoftwareCheck(data: string) returns (fault: Option<Fault>, ghost bursts: seq<Burst>)
      modifies this
      ensures fault.None? ==> wire == old(wire) + data && Payload(bursts) == data
      ensures fault.None? ==> checked > old(checked) && forall i :: old(checked) <= i < checked ==> Clear(env, i)
      ensures fault.None? ==> checked - old(checked) == asked - old(asked) - |bursts| + 1
      ensures CarriesPrefix(old(wire), wire, data) && Polite(bursts, cfg, data)
      ensures fault.Some? ==> Explained(old(wire), data, fault.value, old(checked), old(asked))
    {
      fault, bursts := None, [];
      assert Polite(bursts, cfg, data) && Payload(bursts) == data[..0] && wire + data[..0] == wire;
      var pos: nat, waited: nat := 0, 0;
      while pos < |data|
        invariant pos <= |data| && (waited == 0 || waited < cfg.stallPolls)
        invariant Sending(old(wire), old(checked), old(asked), data, pos, waited, bursts)
        decreases |data| - pos, cfg.stallPolls - waited
      {
        fault, pos, waited, bursts := Turn(old(wire), old(checked), old(asked), data, pos, waited, bursts);
        if fault.Some? {
          return;
        }
      }
      CarriedIsPrefix(old(wire), wire, data, pos);
      assert data[..pos] == data;
      fault := CheckErrors();
    }
  }
}
